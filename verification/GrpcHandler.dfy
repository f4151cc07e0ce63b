/**
 The request handler: each request takes the core lock, makes one call, and only then, with the
 lock released, installs callbacks and spawns broadcasts. Each method is one step of the system
 model. Requests arrive decoded; outcomes decided outside are arguments.
 */
module GrpcHandler {
  import opened Types
  import opened CoreModel
  import opened SfuCoreObject
  import opened SystemModel
  import opened SystemInvariant
  import opened SystemSteps

  datatype Status = InvalidArgument | Internal(error: SessionError) | Unconvertible

  datatype TransportDirection = Unspecified | Send | Recv

  /** The id that the response of a creating request carries. */
  function CreatedId(setup: PendingEventSetup): nat {
    match setup
    case TransportSetup(t, _, _) => t
    case ProducerSetup(q, _, _, _) => q
    case ConsumerSetup(c, _, _) => c
  }

  /** What a granted request carries is what mediasoup made for it. */
  lemma TransportMade(c: Core, s: SessionId, p: ParticipantId, direction: string, made: Option<TransportId>)
    ensures var r := CoreModel.CreateTransport(c, s, p, direction, made).result;
            r.Ok? ==> made == Some(CreatedId(r.value))
  {
    var holder := TransportSpec(c, s, p, direction, made);
  }

  lemma ProducerMade(c: Core, s: SessionId, p: ParticipantId, t: TransportId, kind: MediaKind, made: Option<ProducerId>)
    ensures var r := CoreModel.CreateProducer(c, s, p, t, kind, made).result;
            r.Ok? ==> made == Some(CreatedId(r.value))
  {
    var holder := ProducerSpec(c, s, p, t, kind, made);
  }

  lemma ConsumerMade(
    c: Core, s: SessionId, p: ParticipantId, t: TransportId, q: ProducerId, canConsume: bool, made: Option<ConsumerId>)
    ensures var r := CoreModel.CreateConsumer(c, s, p, t, q, canConsume, made).result;
            r.Ok? ==> made == Some(CreatedId(r.value))
  {
    var holder := ConsumerSpec(c, s, p, t, q, canConsume, made);
  }

  class SfuHandler {
    const sfuCore: SfuCore
    const subscribeChannelCapacity: nat
    /** The close flags the callbacks share, one per resource. */
    var closers: map<Resource, Closer>
    /** The tasks spawned and not yet run. */
    var spawned: multiset<Task>
    /** The subscription waiting for room while it holds the core lock. */
    var suspended: Option<ChannelId>
    ghost var finished: multiset<Task>
    ghost var origins: map<ProducerId, Origin>
    ghost var used: set<SessionId>

    ghost function View(): System
      reads this, sfuCore, sfuCore.routerManager
    {
      System(sfuCore.View(), subscribeChannelCapacity, suspended, closers, spawned, finished, origins, used)
    }

    ghost predicate Valid()
      reads this, sfuCore, sfuCore.routerManager
    {
      Inv(View())
    }

    constructor (core: SfuCore, capacity: nat)
      requires core.Valid() && core.routerManager.nextIndex == 0
      requires core.sessions == map[] && core.eventSenders == map[] && core.channels == map[]
      requires 1 <= capacity
      ensures StartOk(View()) && Valid() && sfuCore == core && subscribeChannelCapacity == capacity
    {
      sfuCore, subscribeChannelCapacity := core, capacity;
      closers, spawned, suspended := map[], multiset{}, None;
      finished, origins, used := multiset{}, map[], {};
      new;
      StartEstablishes(View());
    }

    /** Installs the close callbacks of each new resource, and spawns the announcement of a producer. */
    method SetupEventHandlers(setups: seq<PendingEventSetup>)
      modifies this
      ensures View() == SetUpAll(old(View()), setups)
    {
      for i := 0 to |setups|
        invariant SetUpAll(View(), setups[i..]) == SetUpAll(old(View()), setups)
      {
        assert setups[i..][0] == setups[i] && setups[i..][1..] == setups[i + 1..];
        SetupOne(setups[i]);
      }
    }

    method SetupOne(setup: PendingEventSetup)
      modifies this
      ensures View() == SetUp(old(View()), setup)
    {
      match setup {
        case TransportSetup(t, s, _) =>
          closers := closers[TransportResource(t) := Closer(s, false)];
        case ProducerSetup(q, s, p, kind) =>
          closers := closers[ProducerResource(q) := Closer(s, false)];
          spawned := spawned + multiset{Task(s, NewProducer(q, kind), Some(p))};
          origins := origins[q := Origin(s, p, kind)];
        case ConsumerSetup(c, s, _) =>
          closers := closers[ConsumerResource(c) := Closer(s, false)];
      }
    }

    /** `s` is the freshly drawn session id. */
    method RegisterSession(s: SessionId, p: ParticipantId) returns (r: Result<SessionId, Status>)
      requires Valid() && suspended.None? && s !in used
      modifies this, sfuCore, sfuCore.routerManager
      ensures Valid()
      ensures p == "" ==> r == Err(InvalidArgument) && View() == old(View())
      ensures p != "" ==>
                && View() == Next(old(View()), Label.Register(s, p))
                && r == match CoreModel.Register(old(View()).core, s, p).result
                        case Ok(id) => Ok(id)
                        case Err(e) => Err(Internal(e))
    {
      if p == "" { return Err(InvalidArgument); }
      ghost var before := View();
      RegisterStep(before, s, p);
      used := used + {s};
      var reply := sfuCore.RegisterSession(s, p);
      assert View() == Next(before, Label.Register(s, p));
      match reply
      case Ok(id) => r := Ok(id);
      case Err(e) => r := Err(Internal(e));
    }

    method JoinSession(s: SessionId, p: ParticipantId) returns (r: Result<(), Status>)
      requires Valid() && suspended.None?
      modifies this, sfuCore
      ensures Valid() && View() == Next(old(View()), Label.Join(s, p))
      ensures r == match CoreModel.Join(old(View()).core, s, p).result
                   case Ok(_) => Ok(())
                   case Err(e) => Err(Internal(e))
    {
      ghost var before := View();
      JoinStep(before, s, p);
      var reply := sfuCore.JoinSession(s, p);
      assert View() == Next(before, Label.Join(s, p));
      match reply
      case Ok(_) => r := Ok(());
      case Err(e) => r := Err(Internal(e));
    }

    /**
     Setting up, after the lock is released, what a creating request left to do. Only then is the
     response built, so one that does not convert leaves the resource in place.
     */
    method Conclude(reply: Result<PendingEventSetup, SessionError>, converts: bool) returns (r: Result<nat, Status>)
      modifies this
      ensures View() == if reply.Ok? then SetUp(old(View()), reply.value) else old(View())
      ensures reply.Ok? ==> r == if converts then Ok(CreatedId(reply.value)) else Err(Unconvertible)
      ensures reply.Err? ==> r == Err(Internal(reply.error))
    {
      match reply
      case Err(e) => r := Err(Internal(e));
      case Ok(setup) =>
        SetupEventHandlers([setup]);
        r := if converts then Ok(CreatedId(setup)) else Err(Unconvertible);
    }

    /** `converts` says whether the ICE and DTLS data of the new transport fit the response. */
    method CreateTransport(
      s: SessionId, p: ParticipantId, requested: TransportDirection, made: Option<TransportId>, converts: bool)
      returns (r: Result<TransportId, Status>)
      requires Valid() && suspended.None?
      requires made.Some? ==> TransportResource(made.value) !in closers
      modifies this, sfuCore
      ensures Valid()
      ensures requested.Unspecified? ==> r == Err(InvalidArgument) && View() == old(View())
      ensures !requested.Unspecified? ==>
                var direction := if requested.Send? then "send" else "recv";
                && View() == Next(old(View()), Label.CreateTransport(s, p, direction, made))
                && var created := CoreModel.CreateTransport(old(View()).core, s, p, direction, made).result;
                   && (r.Ok? <==> created.Ok? && converts) && (r.Ok? ==> made == Some(r.value))
                   && (created.Ok? && !converts ==> r == Err(Unconvertible))
                   && (created.Err? ==> r == Err(Internal(created.error)))
    {
      var direction;
      match requested {
        case Send => direction := "send";
        case Recv => direction := "recv";
        case Unspecified => return Err(InvalidArgument);
      }
      TransportStep(View(), s, p, direction, made);
      TransportMade(View().core, s, p, direction, made);
      var reply := sfuCore.CreateTransport(s, p, direction, made);
      r := Conclude(reply, converts);
    }

    method CreateProducer(s: SessionId, p: ParticipantId, t: TransportId, kind: MediaKind, made: Option<ProducerId>)
      returns (r: Result<ProducerId, Status>)
      requires Valid() && suspended.None?
      requires made.Some? ==> ProducerResource(made.value) !in closers
      modifies this, sfuCore
      ensures Valid() && View() == Next(old(View()), Label.CreateProducer(s, p, t, kind, made))
      ensures var created := CoreModel.CreateProducer(old(View()).core, s, p, t, kind, made).result;
              && (r.Ok? <==> created.Ok?) && (r.Ok? ==> made == Some(r.value))
              && (created.Err? ==> r == Err(Internal(created.error)))
    {
      ProducerStep(View(), s, p, t, kind, made);
      ProducerMade(View().core, s, p, t, kind, made);
      var reply := sfuCore.CreateProducer(s, p, t, kind, made);
      r := Conclude(reply, true);
    }

    /** `converts` says whether the RTP parameters of the new consumer fit the response. */
    method CreateConsumer(
      s: SessionId, p: ParticipantId, t: TransportId, q: ProducerId, canConsume: bool, made: Option<ConsumerId>,
      converts: bool)
      returns (r: Result<ConsumerId, Status>)
      requires Valid() && suspended.None?
      requires made.Some? ==> ConsumerResource(made.value) !in closers
      modifies this, sfuCore
      ensures Valid() && View() == Next(old(View()), Label.CreateConsumer(s, p, t, q, canConsume, made))
      ensures var created := CoreModel.CreateConsumer(old(View()).core, s, p, t, q, canConsume, made).result;
              && (r.Ok? <==> created.Ok? && converts) && (r.Ok? ==> made == Some(r.value))
              && (created.Ok? && !converts ==> r == Err(Unconvertible))
              && (created.Err? ==> r == Err(Internal(created.error)))
    {
      ConsumerStep(View(), s, p, t, q, canConsume, made);
      ConsumerMade(View().core, s, p, t, q, canConsume, made);
      var reply := sfuCore.CreateConsumer(s, p, t, q, canConsume, made);
      r := Conclude(reply, converts);
    }

    method CloseSession(s: SessionId)
      requires Valid() && suspended.None?
      modifies this, sfuCore
      ensures Valid() && View() == Next(old(View()), Label.Close(s))
    {
      ghost var after := Next(View(), Label.Close(s));
      CloseStep(View(), s);
      sfuCore.Close(s);
      assert View() == after;
    }

    /**
     Opens the channel `ch` and subscribes over its sender; the receiving end stays with the
     call until it returns. A suspended call keeps the lock and has no stream yet.
     */
    method SubscribeToEvents(s: SessionId, p: ParticipantId, ch: ChannelId)
      returns (r: Result<Option<ChannelId>, Status>, ghost order: seq<Listing>)
      requires Valid() && suspended.None? && ch !in sfuCore.channels
      modifies this, sfuCore
      ensures Valid() && Step(old(View()), Label.Subscribe(s, p, ch, order), View())
      ensures s !in old(sfuCore.sessions) ==> r == Err(Internal(SessionNotFound)) && suspended == None
      ensures s in old(sfuCore.sessions) ==>
                var fits := |Head(s, p, order)| <= subscribeChannelCapacity;
                && r == Ok(if fits then Some(ch) else None)
                && suspended == if fits then None else Some(ch)
    {
      ghost var before := View();
      var outcome;
      outcome, order := sfuCore.SubscribeToEvents(s, p, ch, subscribeChannelCapacity, true);
      assert before.core.sessions == sfuCore.sessions;
      SubscribeStep(before, s, p, ch, order);
      ghost var after := Next(before, Label.Subscribe(s, p, ch, order));
      match outcome {
        case Completed => r := Ok(Some(ch));
        case Suspended => r := Ok(None);
        case Failed(e) => r := Err(Internal(e));
      }
      suspended := if outcome.Suspended? then Some(ch) else None;
      assert View() == after;
    }

    /** The caller of a suspended subscription goes away: its receiver with it, and the lock is free. */
    method DropSuspended()
      requires Valid() && suspended.Some?
      modifies this, sfuCore
      ensures Valid() && View() == Next(old(View()), CancelSuspended)
    {
      ghost var after := Next(View(), CancelSuspended);
      CancelStep(View());
      var ch := suspended.value;
      sfuCore.channels := sfuCore.channels[ch := Dropped(sfuCore.channels[ch])];
      suspended := None;
      assert View() == after;
    }

    /** A spawned task gets the lock. */
    method RunSpawned(t: Task)
      requires Valid() && suspended.None? && t in spawned
      modifies this, sfuCore
      ensures Valid() && View() == Next(old(View()), RunTask(t))
    {
      ghost var after := Next(View(), RunTask(t));
      RunTaskStep(View(), t);
      Finish(t);
      sfuCore.BroadcastEvent(t.session, t.event, t.exclude);
      assert View() == after;
    }

    /** A spawned task is gone once it has run. */
    method Finish(t: Task)
      requires t in spawned
      modifies this
      ensures View() == old(View()).(pending := old(spawned) - multiset{t}, finished := old(finished) + multiset{t})
    {
      spawned := spawned - multiset{t};
      finished := finished + multiset{t};
    }

    /** A close callback of a resource fires; it needs no lock, and only the first one spawns a report. */
    method OnClose(r: Resource)
      requires Valid() && r in closers
      modifies this
      ensures Valid() && View() == Next(old(View()), FireClose(r))
      ensures spawned == old(spawned) + if old(closers[r].closed) then multiset{}
                                        else multiset{Task(closers[r].session, Closed(r), None)}
    {
      FireCloseStep(View(), r);
      var closer := closers[r];
      if !closer.closed {
        closers := closers[r := closer.(closed := true)];
        spawned := spawned + multiset{Task(closer.session, Closed(r), None)};
      }
    }

    /** The shutdown signal handler. */
    method Shutdown() returns (ghost keys: seq<SessionId>)
      requires Valid() && suspended.None?
      modifies this, sfuCore
      ensures Valid() && Enabled(old(View()), Label.Shutdown(keys)) && View() == Next(old(View()), Label.Shutdown(keys))
      ensures sfuCore.sessions == map[] && sfuCore.eventSenders == map[]
    {
      ghost var before := View();
      keys := sfuCore.Shutdown();
      CloseAllStep(before, keys);
    }
  }
}
