/** The SFU core: the object behind the lock, with its maps updated in place. */
module SfuCoreObject {
  import opened Types
  import opened RouterManagement
  import opened CoreModel

  class SfuCore {
    const routerManager: RouterManager
    const maxSessionsPerRouter: usize
    var sessions: map<SessionId, Session>
    var activeSessionsPerRouter: map<RouterId, usize>
    var eventSenders: map<SessionId, map<ParticipantId, ChannelId>>
    /** The event channels in existence; a sender or a receiver is a handle into this table. */
    var channels: map<ChannelId, Channel>

    ghost function View(): Core
      reads this, routerManager
    {
      Core(routerManager.routers, routerManager.webrtcServers, routerManager.nextIndex, maxSessionsPerRouter,
           sessions, activeSessionsPerRouter, eventSenders, channels)
    }

    ghost predicate Valid()
      reads this, routerManager
    {
      CoreOk(View())
    }

    constructor (manager: RouterManager, maxSessionsPerRouter: usize)
      requires manager.Valid() && Distinct(manager.routers)
      requires forall r :: r in manager.routers <==> r in manager.webrtcServers
      ensures Valid() && routerManager == manager
      ensures View().pool == manager.routers && View().cap == maxSessionsPerRouter
      ensures sessions == map[] && eventSenders == map[] && channels == map[]
      ensures forall r :: r in manager.routers <==> r in activeSessionsPerRouter
      ensures forall r :: r in activeSessionsPerRouter ==> activeSessionsPerRouter[r] == 0
    {
      routerManager := manager;
      this.maxSessionsPerRouter := maxSessionsPerRouter;
      var counters: map<RouterId, usize> := map[];
      for i := 0 to |manager.routers|
        invariant forall r :: r in counters <==> r in manager.routers[..i]
        invariant forall r :: r in counters ==> counters[r] == 0
      {
        counters := counters[manager.routers[i] := 0];
      }
      sessions, activeSessionsPerRouter, eventSenders, channels := map[], counters, map[], map[];
      new;
      assert forall r :: Served(sessions, r) == {};
    }

    /** `s` is the freshly drawn session id. */
    method RegisterSession(s: SessionId, p: ParticipantId) returns (r: Result<SessionId, SessionError>)
      requires Valid() && s !in sessions
      modifies this, routerManager
      ensures Valid()
      ensures Reply(View(), r) == Register(old(View()), s, p)
    {
      ghost var before := View();
      RegisterKeeps(before, s, p);
      var found := routerManager.GetAvailableRouter(activeSessionsPerRouter, maxSessionsPerRouter);
      if found.None? { return Err(AllRoutersFull); }
      var router := found.value;
      if router !in activeSessionsPerRouter { return Err(MissingRouterCounter); }
      Place(s, p, router);
      RegisterIs(before, s, p, router, routerManager.nextIndex);
      r := Ok(s);
    }

    /** Counts the session on its router and stores it. */
    method Place(s: SessionId, p: ParticipantId, router: RouterId)
      requires router in activeSessionsPerRouter
      modifies this
      ensures var c := old(View());
              View() == c.(counters := c.counters[router := FetchAdd(c.counters[router])],
                           sessions := c.sessions[s := Session(router, map[p := NewParticipant()], MAX_PARTICIPANTS)])
    {
      activeSessionsPerRouter := activeSessionsPerRouter[router := FetchAdd(activeSessionsPerRouter[router])];
      var participants := map[p := NewParticipant()];
      sessions := sessions[s := Session(router, participants, MAX_PARTICIPANTS)];
    }

    /** What is done to a participant is done in place, in the session it sits in. */
    method Store(s: SessionId, p: ParticipantId, participant: Participant)
      requires s in sessions
      modifies this
      ensures View() == WithParticipant(old(View()), s, p, participant)
    {
      var session := sessions[s];
      sessions := sessions[s := session.(participants := session.participants[p := participant])];
    }

    method JoinSession(s: SessionId, p: ParticipantId) returns (r: Result<(), SessionError>)
      requires Valid()
      modifies this
      ensures Valid()
      ensures Reply(View(), r) == Join(old(View()), s, p)
    {
      if s !in sessions { return Err(SessionNotFound); }
      var session := sessions[s];
      if |session.participants| >= session.maxParticipants { return Err(SessionFull); }
      if p in session.participants { return Err(ParticipantAlreadyExists); }
      WithParticipantKeeps(View(), s, p, NewParticipant());
      Store(s, p, NewParticipant());
      r := Ok(());
    }

    /** `made` is the transport mediasoup creates, or nothing when that fails. */
    method CreateTransport(s: SessionId, p: ParticipantId, direction: string, made: Option<TransportId>)
      returns (r: Result<PendingEventSetup, SessionError>)
      requires Valid()
      modifies this
      ensures Valid()
      ensures Reply(View(), r) == CoreModel.CreateTransport(old(View()), s, p, direction, made)
      ensures r != Err(MissingWebRtcServer)
    {
      if s !in sessions { return Err(SessionNotFound); }
      var session := sessions[s];
      if p !in session.participants { return Err(ParticipantNotFound); }
      var participant := session.participants[p];
      var server := routerManager.GetWebRtcServer(session.router);
      if server.None? { return Err(MissingWebRtcServer); }
      if made.None? { return Err(TransportCreationFailed); }
      match direction {
        case "send" => participant := participant.(send := made);
        case "recv" => participant := participant.(recv := made);
        case _ => return Err(InvalidTransportDirection);
      }
      WithParticipantKeeps(View(), s, p, participant);
      Store(s, p, participant);
      r := Ok(TransportSetup(made.value, s, p));
    }

    method CreateProducer(s: SessionId, p: ParticipantId, t: TransportId, kind: MediaKind, made: Option<ProducerId>)
      returns (r: Result<PendingEventSetup, SessionError>)
      requires Valid()
      modifies this
      ensures Valid()
      ensures Reply(View(), r) == CoreModel.CreateProducer(old(View()), s, p, t, kind, made)
    {
      if s !in sessions { return Err(SessionNotFound); }
      var session := sessions[s];
      if p !in session.participants { return Err(ParticipantNotFound); }
      var participant := session.participants[p];
      if participant.send.None? { return Err(InvalidTransport); }
      if t != participant.send.value { return Err(InvalidTransport); }
      if made.None? { return Err(ProducerCreationFailed); }
      participant := participant.(producers := participant.producers[made.value := kind]);
      WithParticipantKeeps(View(), s, p, participant);
      Store(s, p, participant);
      r := Ok(ProducerSetup(made.value, s, p, kind));
    }

    method CreateConsumer(
      s: SessionId, p: ParticipantId, t: TransportId, q: ProducerId, canConsume: bool, made: Option<ConsumerId>)
      returns (r: Result<PendingEventSetup, SessionError>)
      requires Valid()
      modifies this
      ensures Valid()
      ensures Reply(View(), r) == CoreModel.CreateConsumer(old(View()), s, p, t, q, canConsume, made)
    {
      if s !in sessions { return Err(SessionNotFound); }
      var session := sessions[s];
      if p !in session.participants { return Err(ParticipantNotFound); }
      var participant := session.participants[p];
      if participant.recv.None? { return Err(InvalidTransport); }
      if t != participant.recv.value { return Err(InvalidTransport); }
      if !canConsume { return Err(RtpCapabilitiesMismatch); }
      if made.None? { return Err(ConsumerCreationFailed); }
      participant := participant.(consumers := participant.consumers[made.value := q]);
      WithParticipantKeeps(View(), s, p, participant);
      Store(s, p, participant);
      r := Ok(ConsumerSetup(made.value, s, p));
    }

    method Close(s: SessionId)
      requires Valid()
      modifies this
      ensures Valid()
      ensures View() == CloseSession(old(View()), s)
      ensures sessions.Keys == old(sessions.Keys) - {s}
    {
      CloseSessionKeeps(View(), s);
      if s in sessions {
        var router := sessions[s].router;
        sessions := sessions - {s};
        if router in activeSessionsPerRouter {
          activeSessionsPerRouter := activeSessionsPerRouter[router := FetchSub(activeSessionsPerRouter[router])];
        }
        eventSenders := eventSenders - {s};
      }
    }

    /** Every producer of the session, once, in the order the two hash maps happen to be walked. */
    method GetExistingProducers(s: SessionId) returns (r: Result<seq<Listing>, SessionError>)
      ensures if s in sessions then r.Ok? && IsListing(sessions[s], r.value) else r == Err(SessionNotFound)
    {
      if s !in sessions { return Err(SessionNotFound); }
      var participants := sessions[s].participants;
      var producers: seq<Listing> := [];
      var owners := participants.Keys;
      while owners != {}
        invariant owners <= participants.Keys && Distinct(producers)
        invariant forall x: Listing :: x in producers <==> Listed(sessions[s], x) && x.owner !in owners
      {
        var p :| p in owners;
        ghost var earlier := producers;
        var mine := participants[p].producers;
        var todo := mine.Keys;
        while todo != {}
          invariant todo <= mine.Keys && Distinct(producers)
          invariant forall x: Listing :: x in producers <==>
                      || x in earlier
                      || (x.owner == p && x.producer in mine && x.producer !in todo && x.kind == mine[x.producer])
        {
          var q :| q in todo;
          producers := producers + [Listing(q, mine[q], p)];
          todo := todo - {q};
        }
        owners := owners - {p};
      }
      r := Ok(producers);
    }

    /**
     Subscribes over the new channel `ch`, whose receiver is `alive` for the whole call. The
     listing decides the order of the replay. On `Suspended` the call is waiting for room
     with the core locked.
     */
    method SubscribeToEvents(s: SessionId, p: ParticipantId, ch: ChannelId, capacity: nat, alive: bool)
      returns (r: SubscribeOutcome, ghost order: seq<Listing>)
      requires Valid() && ch !in channels && 1 <= capacity
      modifies this
      ensures Valid()
      ensures sessions == old(sessions)
      ensures s in sessions && alive ==> IsListing(sessions[s], order)
      ensures Subscription(View(), r) == Subscribe(old(View()), s, p, ch, capacity, alive, order)
    {
      ghost var before := View();
      order := [];
      if s !in sessions { return Failed(SessionNotFound), order; }
      var confirmed := SubscriptionConfirmed(s);
      var channel := Channel(s, p, capacity, [confirmed], [], 0, [], alive);
      InstallKeeps(before, ch, channel);
      Connect(ch, channel);
      if !alive {
        SubscribeToNobody(before, s, p, ch, capacity, order, channel);
        return Failed(EventChannelClosed), order;
      }
      channel := channel.(log := [confirmed]);
      var existing := GetExistingProducers(s);
      order := existing.value;
      channel := channel.(head := Head(s, p, existing.value));
      var suspended;
      channel, suspended := SendReplay(channel, p, existing.value);
      r := if suspended then Suspended else Completed;
      InstallThenFeed(before, ch, channels[ch], channel);
      Feed(ch, channel);
      InstallKeeps(before, ch, channel);
      SubscribeIs(before, s, p, ch, capacity, order, channel);
    }

    /** Installs the sender of a new channel. */
    method Connect(ch: ChannelId, channel: Channel)
      modifies this
      ensures View() == Install(old(View()), ch, channel)
    {
      var s := channel.session;
      var mine := if s in eventSenders then eventSenders[s] else map[];
      eventSenders := eventSenders[s := mine[channel.participant := ch]];
      channels := channels[ch := channel];
    }

    /** What is sent over a channel goes into its queue. */
    method Feed(ch: ChannelId, channel: Channel)
      modifies this
      ensures View() == WithChannel(old(View()), ch, channel)
    {
      channels := channels[ch := channel];
    }

    /** The replay loop of a subscription: each send waits for room, which never comes while the call runs. */
    static method SendReplay(channel: Channel, p: ParticipantId, order: seq<Listing>)
      returns (after: Channel, suspended: bool)
      requires channel.alive && channel.taken == 0 && |channel.log| <= channel.capacity
      ensures suspended <==> |channel.log| + |Replay(p, order)| > channel.capacity
      ensures var all := channel.log + Replay(p, order);
              after == channel.(log := if suspended then all[..channel.capacity] else all)
    {
      after := channel;
      for i := 0 to |order|
        invariant after == channel.(log := channel.log + Replay(p, order[..i]))
        invariant |after.log| <= channel.capacity
      {
        var x := order[i];
        ReplayNext(p, order, i);
        if x.owner != p {
          if |after.log| == channel.capacity { return after, true; }
          after := after.(log := after.log + [NewProducer(x.producer, x.kind)]);
        }
      }
      assert order[..|order|] == order;
      suspended := false;
    }

    /** Offers the event to the session's channels in whatever order the sender map is walked. */
    method BroadcastEvent(s: SessionId, e: Event, exclude: Option<ParticipantId>)
      requires Valid()
      modifies this
      ensures Valid()
      ensures View() == Broadcast(old(View()), s, e, exclude)
    {
      ghost var before := View();
      BroadcastKeeps(before, s, e, exclude);
      if s in eventSenders {
        channels := OfferToAll(eventSenders, channels, s, e, exclude);
      }
      BroadcastIs(before, channels, s, e, exclude);
    }

    static lemma BroadcastIs(
      c: Core, after: map<ChannelId, Channel>, s: SessionId, e: Event, exclude: Option<ParticipantId>)
      requires after.Keys == c.channels.Keys
      requires forall ch :: ch in c.channels ==>
                 after[ch] == Delivered(c.senders, ch, c.channels[ch], s, e, exclude)
      ensures Broadcast(c, s, e, exclude) == c.(channels := after)
    {
      assert Broadcast(c, s, e, exclude).channels == after;
    }

    static method OfferToAll(
      senders: map<SessionId, map<ParticipantId, ChannelId>>, channels: map<ChannelId, Channel>,
      s: SessionId, e: Event, exclude: Option<ParticipantId>)
      returns (after: map<ChannelId, Channel>)
      requires s in senders && WiringOk(senders.Keys, senders, channels)
      ensures after.Keys == channels.Keys
      ensures forall ch :: ch in channels ==>
                after[ch] == Delivered(senders, ch, channels[ch], s, e, exclude)
    {
      after := channels;
      var todo := senders[s].Keys;
      while todo != {}
        invariant todo <= senders[s].Keys && after.Keys == channels.Keys
        invariant forall ch :: ch in channels ==>
                    (after[ch] ==
                     if Targeted(senders, ch, channels[ch], s, exclude) && channels[ch].participant !in todo
                     then Offer(channels[ch], e) else channels[ch])
      {
        var p :| p in todo;
        todo := todo - {p};
        if exclude != Some(p) {
          var ch := senders[s][p];
          after := after[ch := Offer(after[ch], e)];
        }
      }
    }

    /** Closes every session, in the order the key set happens to be collected. */
    method Shutdown() returns (ghost order: seq<SessionId>)
      requires Valid()
      modifies this
      ensures Valid()
      ensures Enumerates(order, old(sessions.Keys)) && View() == CloseAll(old(View()), order)
      ensures sessions == map[] && eventSenders == map[]
      ensures forall r :: r in routerManager.routers <==> r in activeSessionsPerRouter
      ensures forall r :: r in activeSessionsPerRouter ==> activeSessionsPerRouter[r] == 0
    {
      var ids: seq<SessionId> := [];
      var todo := sessions.Keys;
      while todo != {}
        invariant todo <= sessions.Keys && Enumerates(ids, sessions.Keys - todo)
      {
        var s :| s in todo;
        ids := ids + [s];
        todo := todo - {s};
      }
      order := ids;
      ShutdownDrains(View(), ids);
      for i := 0 to |ids|
        invariant Valid() && CloseAll(View(), ids[i..]) == CloseAll(old(View()), ids)
      {
        Close(ids[i]);
      }
    }
  }
}
