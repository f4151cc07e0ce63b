/** What subscribers are told, over every run and every interleaving of the waiting tasks. */
module Announcements {
  import opened Types
  import opened CoreModel
  import opened SystemModel
  import opened SystemFrames
  import opened SystemInvariant
  import opened SystemSteps

  /** How often the announcement of `q` was accepted by the channel. */
  function Copies(channel: Channel, q: ProducerId, kind: MediaKind): nat {
    multiset(channel.log)[NewProducer(q, kind)]
  }

  /** How often it was turned away because the queue was full. */
  function Refusals(channel: Channel, q: ProducerId, kind: MediaKind): nat {
    multiset(channel.refused)[NewProducer(q, kind)]
  }

  /** How many of its broadcasts are still waiting to run. */
  function Waiting(st: System, q: ProducerId, o: Origin): nat {
    st.pending[AnnounceTask(q, o)]
  }

  // ---------------------------------------------------------------- nothing is lost, little is repeated

  /**
   Accounting: for the installed channel of a listening participant and any producer held by
   somebody else in its session, copies accepted, copies refused and broadcasts still waiting
   add up to one when the producer was not replayed, and to one or two when it was.
   */
  lemma AnnouncementAccounting(run: Run, k: nat, s: SessionId, p: ParticipantId, q: ProducerId, o: Origin)
    requires IsRun(run) && k < |run.states|
    requires var st := run.states[k];
             && s in st.core.senders && p in st.core.senders[s]
             && Holds(st.core.sessions, q, o) && o.session == s && o.participant != p
    ensures var st := run.states[k];
            var ch := st.core.senders[s][p];
            && ch in st.core.channels
            && var channel := st.core.channels[ch];
               channel.alive && st.lock != Some(ch) ==>
                 var total := Copies(channel, q, o.kind) + Refusals(channel, q, o.kind) + Waiting(st, q, o);
                 if NewProducer(q, o.kind) in channel.head
                 then 1 <= Copies(channel, q, o.kind) && total <= 2
                 else total == 1
  {
    ReachableOk(run, k);
    var st := run.states[k];
    var ch := st.core.senders[s][p];
    var channel := st.core.channels[ch];
    if channel.alive && st.lock != Some(ch) {
      ChannelAccounting(st, ch, channel, q);
    }
  }

  lemma ChannelAccounting(st: System, ch: ChannelId, channel: Channel, q: ProducerId)
    requires ChannelOk(ch, channel, st) && Installed(st.core.senders, ch, channel)
    requires channel.alive && st.lock != Some(ch)
    requires q in st.origins && Concerns(channel, st.origins[q])
    requires st.pending[AnnounceTask(q, st.origins[q])] + st.finished[AnnounceTask(q, st.origins[q])] == 1
    ensures var o := st.origins[q];
            var total := Copies(channel, q, o.kind) + Refusals(channel, q, o.kind) + Waiting(st, q, o);
            if NewProducer(q, o.kind) in channel.head
            then 1 <= Copies(channel, q, o.kind) && total <= 2
            else total == 1
  {
    var e := NewProducer(q, st.origins[q].kind);
    assert Seen(channel, e) == Copies(channel, q, st.origins[q].kind) + Refusals(channel, q, st.origins[q].kind);
    if e in channel.head {
      assert channel.log == channel.head + channel.log[|channel.head|..];
    }
  }

  /**
   No lost announcement: such a producer has been announced on the channel, or its broadcast
   is still waiting, or the channel was full for it, or the receiver is gone, or the
   subscription itself is still suspended.
   */
  lemma NoLostAnnouncement(run: Run, k: nat, s: SessionId, p: ParticipantId, q: ProducerId, o: Origin)
    requires IsRun(run) && k < |run.states|
    requires var st := run.states[k];
             && s in st.core.senders && p in st.core.senders[s]
             && Holds(st.core.sessions, q, o) && o.session == s && o.participant != p
    ensures var st := run.states[k];
            var ch := st.core.senders[s][p];
            && ch in st.core.channels
            && var channel := st.core.channels[ch];
               || NewProducer(q, o.kind) in channel.log
               || Task(s, NewProducer(q, o.kind), Some(o.participant)) in st.pending
               || NewProducer(q, o.kind) in channel.refused
               || !channel.alive
               || st.lock == Some(ch)
  {
    AnnouncementAccounting(run, k, s, p, q, o);
  }

  /** On any channel, installed or not, at most two copies of an announcement arrive or are to come. */
  lemma AtMostTwoCopies(run: Run, k: nat, ch: ChannelId, q: ProducerId)
    requires IsRun(run) && k < |run.states|
    requires ch in run.states[k].core.channels && q in run.states[k].origins
    ensures var st := run.states[k];
            var o := st.origins[q];
            Copies(st.core.channels[ch], q, o.kind) + Waiting(st, q, o) <= 2
  {
    ReachableOk(run, k);
    assert ChannelOk(ch, run.states[k].core.channels[ch], run.states[k]);
  }

  /** The channel as before with possibly more in it: what the sending side may do to it. */
  predicate Grew(before: Channel, after: Channel) {
    && after.session == before.session && after.participant == before.participant
    && after.capacity == before.capacity && after.head == before.head
    && before.log <= after.log && before.refused <= after.refused
    && before.taken <= after.taken && (after.alive ==> before.alive)
  }

  lemma StepGrows(st: System, l: Label, ch: ChannelId)
    requires Enabled(st, l) && ch in st.core.channels
    ensures ch in Next(st, l).core.channels && Grew(st.core.channels[ch], Next(st, l).core.channels[ch])
  {
    if IsRequest(l) {
      RequestStep(st, l);
    } else if l.RunTask? {
      BroadcastGrows(st.core, l.task.session, l.task.event, l.task.exclude, ch);
    } else if IsChannelStep(l) {
      ReceiverGrows(st, l, ch);
    } else {
      OtherStep(st, l);
    }
  }

  lemma BroadcastGrows(c: Core, s: SessionId, e: Event, exclude: Option<ParticipantId>, ch: ChannelId)
    requires ch in c.channels
    ensures ch in Broadcast(c, s, e, exclude).channels && Grew(c.channels[ch], Broadcast(c, s, e, exclude).channels[ch])
  {
  }

  lemma UpdateGrows(before: map<ChannelId, Channel>, x: ChannelId, channel: Channel, ch: ChannelId)
    requires ch in before && (x in before ==> ReceiverMoved(before[x], channel))
    ensures Grew(before[ch], before[x := channel][ch])
  {
  }

  lemma ReceiverGrows(st: System, l: Label, ch: ChannelId)
    requires Enabled(st, l) && ch in st.core.channels && IsChannelStep(l) && !l.RunTask?
    ensures ch in Next(st, l).core.channels && Grew(st.core.channels[ch], Next(st, l).core.channels[ch])
  {
    var x := OneChannelStep(st, l);
    if Next(st, l).core.channels != st.core.channels {
      UpdateGrows(st.core.channels, x, Next(st, l).core.channels[x], ch);
    }
  }

  /** Channels never disappear, never change their head, and only ever append. */
  lemma {:induction false} RunGrows(run: Run, i: nat, k: nat, ch: ChannelId)
    requires IsRun(run) && i <= k < |run.states| && ch in run.states[i].core.channels
    ensures ch in run.states[k].core.channels && Grew(run.states[i].core.channels[ch], run.states[k].core.channels[ch])
    decreases k
  {
    if i < k {
      RunGrows(run, i, k - 1, ch);
      GrowsAt(run, k - 1, ch);
    }
  }

  lemma GrowsAt(run: Run, j: nat, ch: ChannelId)
    requires IsRun(run) && j < |run.labels| && ch in run.states[j].core.channels
    ensures ch in run.states[j + 1].core.channels
    ensures Grew(run.states[j].core.channels[ch], run.states[j + 1].core.channels[ch])
  {
    assert ReachedAt(run, j + 1);
    StepGrows(run.states[j], run.labels[j], ch);
  }

  /**
   A channel opened before the producer existed gets its announcement at most once, counting
   the broadcast still to come.
   */
  lemma AtMostOneCopyWhenSubscribedFirst(run: Run, i: nat, k: nat, ch: ChannelId, q: ProducerId)
    requires IsRun(run) && i <= k < |run.states|
    requires ch in run.states[i].core.channels && q !in run.states[i].origins && q in run.states[k].origins
    ensures var st := run.states[k];
            var o := st.origins[q];
            && ch in st.core.channels
            && Copies(st.core.channels[ch], q, o.kind) + Waiting(st, q, o) <= 1
  {
    RunGrows(run, i, k, ch);
    NotInHead(run, i, ch, q, run.states[k].origins[q].kind);
    CopiesBeyondHead(run, k, ch, q);
  }

  lemma NotInHead(run: Run, i: nat, ch: ChannelId, q: ProducerId, kind: MediaKind)
    requires IsRun(run) && i < |run.states| && ch in run.states[i].core.channels && q !in run.states[i].origins
    ensures NewProducer(q, kind) !in run.states[i].core.channels[ch].head
  {
    ReachableOk(run, i);
    var st := run.states[i];
    assert ChannelOk(ch, st.core.channels[ch], st);
    assert !EventHasSource(NewProducer(q, kind), st.core.channels[ch], st.origins, st.closers);
  }

  lemma CopiesBeyondHead(run: Run, k: nat, ch: ChannelId, q: ProducerId)
    requires IsRun(run) && k < |run.states| && ch in run.states[k].core.channels && q in run.states[k].origins
    ensures var st := run.states[k];
            var o := st.origins[q];
            Copies(st.core.channels[ch], q, o.kind) + Waiting(st, q, o)
            <= multiset(st.core.channels[ch].head)[NewProducer(q, o.kind)] + 1
  {
    ReachableOk(run, k);
    assert ChannelOk(ch, run.states[k].core.channels[ch], run.states[k]);
  }

  // ---------------------------------------------------------------- who hears what

  /** The request that creates `q` as `o` says. */
  predicate Creates(l: Label, q: ProducerId, o: Origin) {
    && l.CreateProducer? && l.producer == Some(q)
    && l.session == o.session && l.participant == o.participant && l.kind == o.kind
  }

  lemma TransportOrigins(st: System, s: SessionId, p: ParticipantId, direction: string, made: Option<TransportId>)
    ensures Created(st, CoreModel.CreateTransport(st.core, s, p, direction, made)).origins == st.origins
  {
    var holder := TransportSpec(st.core, s, p, direction, made);
  }

  lemma OtherStepOrigins(st: System, l: Label)
    requires Enabled(st, l) && !l.CreateProducer?
    ensures Next(st, l).origins == st.origins
  {
    if l.CreateTransport? {
      TransportOrigins(st, l.session, l.participant, l.direction, l.transport);
    } else if IsChannelStep(l) {
      ChannelStep(st, l);
    } else if !IsRequest(l) {
      OtherStep(st, l);
    }
  }

  lemma StepOrigins(st: System, l: Label, q: ProducerId)
    requires Enabled(st, l) && (q in st.origins ==> ProducerResource(q) in st.closers)
    ensures q in st.origins ==> q in Next(st, l).origins && Next(st, l).origins[q] == st.origins[q]
    ensures q in Next(st, l).origins && q !in st.origins ==> Creates(l, q, Next(st, l).origins[q])
  {
    if !l.CreateProducer? { OtherStepOrigins(st, l); }
  }

  /** The parts of the invariant that following one producer through a run needs. */
  lemma ReachableFacts(run: Run, k: nat, q: ProducerId)
    requires IsRun(run) && k < |run.states|
    ensures q in run.states[k].origins ==> ProducerResource(q) in run.states[k].closers
    ensures forall t :: t in run.states[k].pending ==> TaskHasSource(t, run.states[k].origins, run.states[k].closers)
  {
    ReachableOk(run, k);
  }

  lemma OriginsAt(run: Run, j: nat, q: ProducerId)
    requires IsRun(run) && j < |run.labels| && q in run.states[j + 1].origins
    ensures if q in run.states[j].origins then run.states[j + 1].origins[q] == run.states[j].origins[q]
            else Creates(run.labels[j], q, run.states[j + 1].origins[q])
  {
    assert ReachedAt(run, j + 1);
    ReachableFacts(run, j, q);
    StepOrigins(run.states[j], run.labels[j], q);
  }

  lemma {:induction false} RunOrigins(run: Run, k: nat, q: ProducerId) returns (j: nat)
    requires IsRun(run) && k < |run.states| && q in run.states[k].origins
    ensures j < k && Creates(run.labels[j], q, run.states[k].origins[q])
    decreases k
  {
    assert ReachedAt(run, 0);
    OriginsAt(run, k - 1, q);
    if q in run.states[k - 1].origins {
      j := RunOrigins(run, k - 1, q);
    } else {
      j := k - 1;
    }
  }

  /**
   Isolation: whatever announcement a channel ever accepts or refuses is of a producer that
   another participant created, by an earlier request, in the channel's own session.
   */
  lemma AnnouncementsAreIsolated(run: Run, k: nat, ch: ChannelId, q: ProducerId, kind: MediaKind)
    returns (creator: ParticipantId, j: nat)
    requires IsRun(run) && k < |run.states| && ch in run.states[k].core.channels
    requires var channel := run.states[k].core.channels[ch];
             NewProducer(q, kind) in channel.log || NewProducer(q, kind) in channel.refused
    ensures var channel := run.states[k].core.channels[ch];
            creator != channel.participant && j < k
            && Creates(run.labels[j], q, Origin(channel.session, creator, kind))
  {
    ReachableOk(run, k);
    var st := run.states[k];
    assert ChannelOk(ch, st.core.channels[ch], st);
    assert EventHasSource(NewProducer(q, kind), st.core.channels[ch], st.origins, st.closers);
    creator := st.origins[q].participant;
    j := RunOrigins(run, k, q);
  }

  // ---------------------------------------------------------------- what a subscription replays

  /** How much of its head a subscription gets out before it completes or is suspended. */
  function Begun(head: seq<Event>, capacity: nat): (events: seq<Event>) {
    if |head| <= capacity then head else head[..capacity]
  }

  lemma SubscribedHead(c: Core, s: SessionId, p: ParticipantId, ch: ChannelId, capacity: nat, order: seq<Listing>)
    requires s in c.sessions
    ensures var channels := CoreModel.Subscribe(c, s, p, ch, capacity, true, order).core.channels;
            && ch in channels && channels[ch].session == s && channels[ch].participant == p
            && channels[ch].head == Head(s, p, order)
            && channels[ch].log == Begun(Head(s, p, order), capacity) && channels[ch].refused == []
  {
    var head := Head(s, p, order);
    assert head[..|head|] == head;
  }

  lemma SubscribedAt(run: Run, i: nat, s: SessionId, p: ParticipantId, ch: ChannelId, order: seq<Listing>)
    requires IsRun(run) && i < |run.labels| && run.labels[i] == Label.Subscribe(s, p, ch, order)
    requires s in run.states[i].core.sessions
    ensures IsListing(run.states[i].core.sessions[s], order)
    ensures run.states[i + 1].pending == run.states[i].pending && run.states[i + 1].origins == run.states[i].origins
    ensures var after := run.states[i + 1].core.channels;
            && ch in after && after[ch].session == s && after[ch].participant == p
            && after[ch].head == Head(s, p, order) && after[ch].refused == []
            && after[ch].log == Begun(Head(s, p, order), run.states[i].capacity)
  {
    assert ReachedAt(run, i + 1);
    SubscribedHead(run.states[i].core, s, p, ch, run.states[i].capacity, order);
  }

  /** The event announces a producer held in session `s` by someone other than `p`. */
  predicate AnnouncedAs(sessions: map<SessionId, Session>, e: Event, o: Origin, s: SessionId, p: ParticipantId) {
    e.NewProducer? && Holds(sessions, e.producer, o) && o.kind == e.kind && o.session == s && o.participant != p
  }

  /** The events announce each producer that the others in the session hold, once, and nothing else. */
  ghost predicate AnnouncesOthers(
    sessions: map<SessionId, Session>, s: SessionId, p: ParticipantId, events: seq<Event>)
  {
    && (forall q, o :: Holds(sessions, q, o) ==>
          multiset(events)[NewProducer(q, o.kind)] == if o.session == s && o.participant != p then 1 else 0)
    && (forall e :: e in events ==> e.NewProducer? && exists o :: AnnouncedAs(sessions, e, o, s, p))
  }

  lemma ReplayIsExact(st: System, s: SessionId, p: ParticipantId, order: seq<Listing>)
    requires OriginsOk(st.core.sessions, st.origins, st.used, st.closers)
    requires s in st.core.sessions && IsListing(st.core.sessions[s], order)
    ensures AnnouncesOthers(st.core.sessions, s, p, Replay(p, order))
  {
    forall q, o | Holds(st.core.sessions, q, o)
      ensures multiset(Replay(p, order))[NewProducer(q, o.kind)]
           == if o.session == s && o.participant != p then 1 else 0
    {
      HeadAnnounces(st, s, p, order, q);
      assert multiset(Head(s, p, order)) == multiset{SubscriptionConfirmed(s)} + multiset(Replay(p, order));
    }
    forall e | e in Replay(p, order)
      ensures e.NewProducer? && exists o :: AnnouncedAs(st.core.sessions, e, o, s, p)
    {
      ReplayEvents(p, order, e);
      var owner :| owner != p && Listing(e.producer, e.kind, owner) in order;
      assert Listed(st.core.sessions[s], Listing(e.producer, e.kind, owner));
      assert AnnouncedAs(st.core.sessions, e, Origin(s, owner, e.kind), s, p);
    }
  }

  // ---------------------------------------------------------------- exactly how many

  /** The channel is the one broadcasts reach, and somebody holds its receiving end. */
  predicate Listening(c: Core, ch: ChannelId) {
    ch in c.channels && Installed(c.senders, ch, c.channels[ch]) && c.channels[ch].alive
  }

  /** Copies accepted, copies refused and broadcasts still waiting. */
  function Accounted(st: System, ch: ChannelId, q: ProducerId): nat
    requires ch in st.core.channels && q in st.origins
  {
    Seen(st.core.channels[ch], NewProducer(q, st.origins[q].kind)) + Waiting(st, q, st.origins[q])
  }

  /** A channel that is not listening never listens again. */
  lemma StepListening(st: System, l: Label, ch: ChannelId)
    requires Enabled(st, l) && ch in st.core.channels && Listening(Next(st, l).core, ch)
    ensures Listening(st.core, ch)
  {
    StepGrows(st, l, ch);
    StepSenders(st, l, ch, st.core.channels[ch]);
  }

  lemma StepSenders(st: System, l: Label, ch: ChannelId, channel: Channel)
    requires Enabled(st, l) && ch in st.core.channels && Installed(Next(st, l).core.senders, ch, channel)
    ensures Installed(st.core.senders, ch, channel)
  {
    if IsRequest(l) {
      RequestStep(st, l);
    } else if l.RunTask? {
      assert Next(st, l).core.senders == st.core.senders;
    } else if IsChannelStep(l) {
      var x := OneChannelStep(st, l);
      if x !in st.core.channels && x in Next(st, l).core.channels {
        InstalledBefore(st.core, x, Next(st, l).core.channels[x], ch, channel);
      }
    } else {
      OtherStep(st, l);
    }
  }

  lemma InstalledBefore(c: Core, x: ChannelId, latest: Channel, ch: ChannelId, channel: Channel)
    requires x !in c.channels && ch in c.channels && Installed(Install(c, x, latest).senders, ch, channel)
    ensures Installed(c.senders, ch, channel)
  {
  }

  /** Running a broadcast moves one copy from waiting to seen, for the channels that listen. */
  lemma BroadcastConserves(st: System, t: Task, ch: ChannelId, q: ProducerId)
    requires Enabled(st, RunTask(t)) && Listening(st.core, ch) && TaskHasSource(t, st.origins, st.closers)
    requires q in st.origins && Concerns(st.core.channels[ch], st.origins[q])
    ensures ch in Next(st, RunTask(t)).core.channels
    ensures Accounted(Next(st, RunTask(t)), ch, q) == Accounted(st, ch, q)
  {
    var channel := st.core.channels[ch];
    var after := Next(st, RunTask(t));
    ReachedConserves(st, t, ch, channel, q);
    assert after.core.channels[ch] == Reached(ch, channel, st, t);
  }

  lemma ReachedConserves(st: System, t: Task, ch: ChannelId, channel: Channel, q: ProducerId)
    requires TaskHasSource(t, st.origins, st.closers) && t in st.pending
    requires Installed(st.core.senders, ch, channel) && channel.alive
    requires q in st.origins && Concerns(channel, st.origins[q])
    ensures var o := st.origins[q];
            var e := NewProducer(q, o.kind);
            Seen(Reached(ch, channel, st, t), e) + (st.pending - multiset{t})[AnnounceTask(q, o)]
            == Seen(channel, e) + st.pending[AnnounceTask(q, o)]
  {
    OfferCounts(channel, t.event, NewProducer(q, st.origins[q].kind));
  }

  /** Only a broadcast adds to a channel, whether it is accepted or refused. */
  lemma QuietStep(st: System, l: Label, ch: ChannelId)
    requires Enabled(st, l) && !l.RunTask? && ch in st.core.channels
    ensures ch in Next(st, l).core.channels && Next(st, l).core.channels[ch].log == st.core.channels[ch].log
    ensures Next(st, l).core.channels[ch].refused == st.core.channels[ch].refused
  {
    if IsRequest(l) {
      RequestStep(st, l);
    } else if IsChannelStep(l) {
      var x := OneChannelStep(st, l);
    } else {
      OtherStep(st, l);
    }
  }

  /** No other step announces `q` again, or changes what the channel has seen. */
  lemma OtherStepConserves(st: System, l: Label, ch: ChannelId, q: ProducerId)
    requires Enabled(st, l) && !l.RunTask? && ch in st.core.channels
    requires q in st.origins && ProducerResource(q) in st.closers
    ensures q in Next(st, l).origins && Next(st, l).origins[q] == st.origins[q]
    ensures Waiting(Next(st, l), q, st.origins[q]) == Waiting(st, q, st.origins[q])
    ensures ch in Next(st, l).core.channels && Next(st, l).core.channels[ch].log == st.core.channels[ch].log
    ensures Next(st, l).core.channels[ch].refused == st.core.channels[ch].refused
  {
    StepOrigins(st, l, q);
    QuietStep(st, l, ch);
    if IsRequest(l) {
      RequestTasks(st, l, q);
    }
  }

  lemma RequestTasks(st: System, l: Label, q: ProducerId)
    requires Enabled(st, l) && IsRequest(l) && q in st.origins && ProducerResource(q) in st.closers
    ensures Waiting(Next(st, l), q, st.origins[q]) == Waiting(st, q, st.origins[q])
  {
    if l.CreateTransport? {
      var holder := TransportSpec(st.core, l.session, l.participant, l.direction, l.transport);
    }
  }

  lemma StepConserves(st: System, l: Label, ch: ChannelId, q: ProducerId)
    requires Enabled(st, l) && Listening(Next(st, l).core, ch) && ch in st.core.channels
    requires l.RunTask? ==> TaskHasSource(l.task, st.origins, st.closers)
    requires q in st.origins && ProducerResource(q) in st.closers && Concerns(st.core.channels[ch], st.origins[q])
    ensures q in Next(st, l).origins && Next(st, l).origins[q] == st.origins[q]
    ensures Listening(st.core, ch) && Accounted(Next(st, l), ch, q) == Accounted(st, ch, q)
  {
    StepListening(st, l, ch);
    if l.RunTask? {
      BroadcastConserves(st, l.task, ch, q);
    } else {
      OtherStepConserves(st, l, ch, q);
    }
  }

  lemma StepFollows(st: System, l: Label, ch: ChannelId, q: ProducerId)
    requires Enabled(st, l) && ch in st.core.channels && q in st.origins && ProducerResource(q) in st.closers
    requires Concerns(st.core.channels[ch], st.origins[q])
    requires forall t :: t in st.pending ==> TaskHasSource(t, st.origins, st.closers)
    ensures ch in Next(st, l).core.channels && q in Next(st, l).origins && Next(st, l).origins[q] == st.origins[q]
    ensures Listening(Next(st, l).core, ch) ==>
              Listening(st.core, ch) && Accounted(Next(st, l), ch, q) == Accounted(st, ch, q)
  {
    StepGrows(st, l, ch);
    StepOrigins(st, l, q);
    if Listening(Next(st, l).core, ch) { StepConserves(st, l, ch, q); }
  }

  lemma FollowsAt(run: Run, j: nat, ch: ChannelId, q: ProducerId)
    requires IsRun(run) && j < |run.labels| && ch in run.states[j].core.channels
    requires q in run.states[j].origins && Concerns(run.states[j].core.channels[ch], run.states[j].origins[q])
    ensures ch in run.states[j + 1].core.channels && q in run.states[j + 1].origins
    ensures run.states[j + 1].origins[q] == run.states[j].origins[q]
    ensures Listening(run.states[j + 1].core, ch) ==>
              && Listening(run.states[j].core, ch)
              && Accounted(run.states[j + 1], ch, q) == Accounted(run.states[j], ch, q)
  {
    ReachableFacts(run, j, q);
    assert ReachedAt(run, j + 1);
    StepFollows(run.states[j], run.labels[j], ch, q);
  }

  lemma {:induction false} RunConserves(run: Run, i: nat, k: nat, ch: ChannelId, q: ProducerId)
    requires IsRun(run) && i <= k < |run.states| && ch in run.states[i].core.channels
    requires q in run.states[i].origins && Concerns(run.states[i].core.channels[ch], run.states[i].origins[q])
    ensures ch in run.states[k].core.channels && q in run.states[k].origins
    ensures run.states[k].origins[q] == run.states[i].origins[q]
    ensures Listening(run.states[k].core, ch) ==>
              Listening(run.states[i].core, ch) && Accounted(run.states[k], ch, q) == Accounted(run.states[i], ch, q)
    decreases k
  {
    if i < k {
      RunConserves(run, i, k - 1, ch, q);
      RunGrows(run, i, k - 1, ch);
      FollowsAt(run, k - 1, ch, q);
    }
  }

  /**
   Exactly how often a producer that was there at the subscription is announced: while the
   channel listens, the copies it accepts or refuses and the broadcast still to come add up to
   one for the replay and one more if and only if the producer's broadcast had not yet run
   when the participant subscribed.
   */
  lemma ReplayedCopiesExactly(
    run: Run, i: nat, k: nat, s: SessionId, p: ParticipantId, ch: ChannelId, order: seq<Listing>,
    q: ProducerId, o: Origin)
    requires IsRun(run) && i < k < |run.states| && run.labels[i] == Label.Subscribe(s, p, ch, order)
    requires |Head(s, p, order)| <= run.states[i].capacity
    requires Holds(run.states[i].core.sessions, q, o) && o.session == s && o.participant != p
    ensures var st, end := run.states[i], run.states[k];
            && ch in end.core.channels
            && (Listening(end.core, ch) ==>
                  var channel := end.core.channels[ch];
                  Copies(channel, q, o.kind) + Refusals(channel, q, o.kind) + Waiting(end, q, o)
                  == 1 + (if AnnounceTask(q, o) in st.pending then 1 else 0))
  {
    SubscribedAt(run, i, s, p, ch, order);
    ReplayedOnce(run, i, s, p, order, q, o);
    RunConserves(run, i + 1, k, ch, q);
  }

  /** At the subscription the producer is in the replay once, and its broadcast waits or has run. */
  lemma ReplayedOnce(run: Run, i: nat, s: SessionId, p: ParticipantId, order: seq<Listing>, q: ProducerId, o: Origin)
    requires IsRun(run) && i < |run.states| && s in run.states[i].core.sessions
    requires IsListing(run.states[i].core.sessions[s], order)
    requires Holds(run.states[i].core.sessions, q, o) && o.session == s && o.participant != p
    ensures q in run.states[i].origins && run.states[i].origins[q] == o
    ensures multiset(Head(s, p, order))[NewProducer(q, o.kind)] == 1
    ensures var st := run.states[i];
            Waiting(st, q, o) == if AnnounceTask(q, o) in st.pending then 1 else 0
  {
    ReachableOk(run, i);
    HeadAnnounces(run.states[i], s, p, order, q);
    OnePending(run.states[i], q);
  }

  lemma OnePending(st: System, q: ProducerId)
    requires TasksOk(st.pending, st.finished, st.origins, st.closers) && q in st.origins
    ensures var t := AnnounceTask(q, st.origins[q]);
            st.pending[t] == if t in st.pending then 1 else 0
  {
    assert st.pending[AnnounceTask(q, st.origins[q])] + st.finished[AnnounceTask(q, st.origins[q])] == 1;
  }

  /**
   And a producer created while the channel listens is announced exactly once, counting the
   broadcast still to come, for as long as the channel listens.
   */
  lemma LaterCopiesExactly(run: Run, i: nat, k: nat, ch: ChannelId, q: ProducerId, o: Origin)
    requires IsRun(run) && i < k < |run.states| && Creates(run.labels[i], q, o)
    requires ch in run.states[i].core.channels && Concerns(run.states[i].core.channels[ch], o)
    requires q in run.states[i + 1].origins
    ensures var end := run.states[k];
            && ch in end.core.channels
            && (Listening(end.core, ch) ==>
                  var channel := end.core.channels[ch];
                  Copies(channel, q, o.kind) + Refusals(channel, q, o.kind) + Waiting(end, q, o) == 1)
  {
    LaterStart(run, i, ch, q, o);
    RunConserves(run, i + 1, k, ch, q);
  }

  lemma LaterStart(run: Run, i: nat, ch: ChannelId, q: ProducerId, o: Origin)
    requires IsRun(run) && i < |run.labels| && Creates(run.labels[i], q, o)
    requires ch in run.states[i].core.channels && Concerns(run.states[i].core.channels[ch], o)
    requires q in run.states[i + 1].origins
    ensures var next := run.states[i + 1];
            && ch in next.core.channels && Concerns(next.core.channels[ch], o)
            && next.origins[q] == o && Accounted(next, ch, q) == 1
  {
    ReachableOk(run, i);
    assert ReachedAt(run, i + 1);
    StepGrows(run.states[i], run.labels[i], ch);
    NotSeenYet(run.states[i], run.labels[i], ch, q, o);
  }

  lemma NotSeenYet(st: System, l: Label, ch: ChannelId, q: ProducerId, o: Origin)
    requires Inv(st) && Enabled(st, l) && Creates(l, q, o) && ch in st.core.channels && q in Next(st, l).origins
    ensures Next(st, l).origins[q] == o && ch in Next(st, l).core.channels
    ensures Accounted(Next(st, l), ch, q) == 1
  {
    assert q !in st.origins;
    RequestStep(st, l);
    ProducerMade(st, l, q, o);
    assert ChannelOk(ch, st.core.channels[ch], st);
    UnknownIsUnseen(st, st.core.channels[ch], q, o);
  }

  lemma ProducerMade(st: System, l: Label, q: ProducerId, o: Origin)
    requires Enabled(st, l) && Creates(l, q, o) && q !in st.origins && q in Next(st, l).origins
    ensures Next(st, l).origins[q] == o && Next(st, l).pending == st.pending + multiset{AnnounceTask(q, o)}
  {
  }

  lemma UnknownIsUnseen(st: System, channel: Channel, q: ProducerId, o: Origin)
    requires SourcesOk(channel, st.origins, st.closers) && q !in st.origins
    requires TasksOk(st.pending, st.finished, st.origins, st.closers)
    ensures Seen(channel, NewProducer(q, o.kind)) == 0 && st.pending[AnnounceTask(q, o)] == 0
  {
    var e := NewProducer(q, o.kind);
    assert !EventHasSource(e, channel, st.origins, st.closers);
    assert e !in channel.log && e !in channel.refused;
    assert !TaskHasSource(AnnounceTask(q, o), st.origins, st.closers);
  }
}
