/** Closing, from the callbacks of one resource to a whole session, and subscriptions that do not fit. */
module Lifecycle {
  import opened Types
  import opened CoreModel
  import opened SystemModel
  import opened SystemFrames
  import opened SystemInvariant
  import opened SystemSteps
  import opened Announcements
  import opened Delivery
  import opened Resources

  // ---------------------------------------------------------------- one close event per resource

  /**
   However many close callbacks of a resource fire, and however they interleave with anything
   else, exactly one report is spawned if any fired and none otherwise.
   */
  lemma OneReportPerResource(run: Run, k: nat, r: Resource)
    requires IsRun(run) && k < |run.states| && r in run.states[k].closers
    ensures var st := run.states[k];
            var report := CloseTask(st.closers[r].session, r);
            && st.pending[report] + st.finished[report] == (if Fired(run, k, r) then 1 else 0)
            && forall t :: (t in st.pending || t in st.finished) && t.event == Closed(r) ==> t == report
  {
    ReachableOk(run, k);
    RunCloses(run, k, r);
    var st := run.states[k];
    forall t | (t in st.pending || t in st.finished) && t.event == Closed(r)
      ensures t == CloseTask(st.closers[r].session, r)
    {
      assert TaskHasSource(t, st.origins, st.closers);
    }
  }

  /** So a channel carries at most one closed event per resource, and none before a callback fired. */
  lemma AtMostOneCloseEvent(run: Run, k: nat, ch: ChannelId, r: Resource)
    requires IsRun(run) && k < |run.states| && ch in run.states[k].core.channels
    ensures multiset(run.states[k].core.channels[ch].log)[Closed(r)] <= if Fired(run, k, r) then 1 else 0
  {
    ReachableOk(run, k);
    RunCloses(run, k, r);
    CloseCounts(run.states[k], ch, run.states[k].core.channels[ch], r);
  }

  lemma CloseCounts(st: System, ch: ChannelId, channel: Channel, r: Resource)
    requires ChannelOk(ch, channel, st) && TasksOk(st.pending, st.finished, st.origins, st.closers)
    ensures multiset(channel.log)[Closed(r)] <= if IsClosed(st.closers, r) then 1 else 0
  {
    if Closed(r) in channel.log {
      assert EventHasSource(Closed(r), channel, st.origins, st.closers);
      assert Seen(channel, Closed(r)) <= st.finished[CloseTask(st.closers[r].session, r)];
    }
  }

  /** Copies of the closed event accepted, copies refused, and the report when it is still waiting. */
  function Reports(st: System, ch: ChannelId, r: Resource): nat
    requires ch in st.core.channels && r in st.closers
  {
    Seen(st.core.channels[ch], Closed(r)) + st.pending[CloseTask(st.closers[r].session, r)]
  }

  /** Once the flag is up, the report moves from waiting to seen on channels that listen, and is gone for the rest. */
  lemma ReportStep(st: System, l: Label, ch: ChannelId, r: Resource)
    requires Enabled(st, l) && ch in st.core.channels && IsClosed(st.closers, r)
    requires l.RunTask? ==> TaskHasSource(l.task, st.origins, st.closers)
    ensures ch in Next(st, l).core.channels && r in Next(st, l).closers
    ensures Next(st, l).closers[r] == st.closers[r]
    ensures Reports(Next(st, l), ch, r) <= Reports(st, ch, r)
    ensures Listening(Next(st, l).core, ch) && st.core.channels[ch].session == st.closers[r].session ==>
              Reports(Next(st, l), ch, r) == Reports(st, ch, r)
  {
    if l.RunTask? {
      OfferCounts(st.core.channels[ch], l.task.event, Closed(r));
    } else {
      QuietStep(st, l, ch);
      QuietReports(st, l, r);
    }
  }

  lemma QuietReports(st: System, l: Label, r: Resource)
    requires Enabled(st, l) && !l.RunTask? && IsClosed(st.closers, r)
    ensures r in Next(st, l).closers && Next(st, l).closers[r] == st.closers[r]
    ensures var report := CloseTask(st.closers[r].session, r);
            Next(st, l).pending[report] == st.pending[report]
  {
    if l.CreateTransport? {
      var holder := TransportSpec(st.core, l.session, l.participant, l.direction, l.transport);
    }
  }

  lemma ReportsAt(run: Run, j: nat, ch: ChannelId, r: Resource)
    requires IsRun(run) && j < |run.labels| && ch in run.states[j].core.channels && IsClosed(run.states[j].closers, r)
    ensures var st, next := run.states[j], run.states[j + 1];
            && ch in next.core.channels && r in next.closers && next.closers[r] == st.closers[r]
            && Reports(next, ch, r) <= Reports(st, ch, r)
            && (Listening(next.core, ch) && st.core.channels[ch].session == st.closers[r].session ==>
                  Reports(next, ch, r) == Reports(st, ch, r))
  {
    assert ReachedAt(run, j + 1);
    ReachableFacts(run, j, 0);
    ReportStep(run.states[j], run.labels[j], ch, r);
  }

  lemma {:induction false} RunReports(run: Run, i: nat, k: nat, ch: ChannelId, r: Resource)
    requires IsRun(run) && i <= k < |run.states|
    requires ch in run.states[i].core.channels && IsClosed(run.states[i].closers, r)
    ensures var st, end := run.states[i], run.states[k];
            && ch in end.core.channels && r in end.closers && end.closers[r] == st.closers[r]
            && end.core.channels[ch].session == st.core.channels[ch].session
            && Reports(end, ch, r) <= Reports(st, ch, r)
            && (Listening(end.core, ch) && st.core.channels[ch].session == st.closers[r].session ==>
                  Reports(end, ch, r) == Reports(st, ch, r))
    decreases k
  {
    if i < k {
      RunReports(run, i, k - 1, ch, r);
      ReportsAt(run, k - 1, ch, r);
      GrowsAt(run, k - 1, ch);
      if Listening(run.states[k].core, ch) { ListeningAt(run, k - 1, ch); }
    }
  }

  /** Before the first callback fires, nothing has been reported. */
  lemma NoReportYet(run: Run, k: nat, ch: ChannelId, r: Resource)
    requires IsRun(run) && k < |run.states| && ch in run.states[k].core.channels
    requires r in run.states[k].closers && !run.states[k].closers[r].closed
    ensures Reports(run.states[k], ch, r) == 0
  {
    ReachableOk(run, k);
    assert ChannelOk(ch, run.states[k].core.channels[ch], run.states[k]);
  }

  /** The step at which the first callback of the resource fires. */
  lemma {:induction false} FirstFired(run: Run, i: nat, k: nat, r: Resource) returns (j: nat)
    requires IsRun(run) && i <= k < |run.states|
    requires !IsClosed(run.states[i].closers, r) && IsClosed(run.states[k].closers, r)
    ensures i <= j < k && run.labels[j] == FireClose(r) && r in run.states[j].closers
    ensures !run.states[j].closers[r].closed && IsClosed(run.states[j + 1].closers, r)
    ensures run.states[j + 1].core == run.states[j].core
    ensures var report := CloseTask(run.states[j].closers[r].session, r);
            && run.states[j + 1].closers[r].session == run.states[j].closers[r].session
            && run.states[j + 1].pending == run.states[j].pending + multiset{report}
    decreases k
  {
    if IsClosed(run.states[k - 1].closers, r) {
      j := FirstFired(run, i, k - 1, r);
    } else {
      j := k - 1;
      FiredAt(run, j, r);
    }
  }

  lemma FiredAt(run: Run, j: nat, r: Resource)
    requires IsRun(run) && j < |run.labels|
    requires !IsClosed(run.states[j].closers, r) && IsClosed(run.states[j + 1].closers, r)
    ensures run.labels[j] == FireClose(r) && r in run.states[j].closers
    ensures run.states[j + 1].core == run.states[j].core
    ensures var report := CloseTask(run.states[j].closers[r].session, r);
            && run.states[j + 1].closers[r].session == run.states[j].closers[r].session
            && run.states[j + 1].pending == run.states[j].pending + multiset{report}
  {
    assert ReachedAt(run, j + 1);
    StepCloses(run.states[j], run.labels[j], r);
  }

  /** Copies of the closed event that the channel of session `s` accepted, refused, or is still to be offered. */
  function Told(st: System, ch: ChannelId, r: Resource, s: SessionId): nat
    requires ch in st.core.channels
  {
    multiset(st.core.channels[ch].log)[Closed(r)] + multiset(st.core.channels[ch].refused)[Closed(r)]
    + st.pending[Task(s, Closed(r), None)]
  }

  /**
   Exactly one: a channel that listens in the session of the request that created the resource,
   and was open before the resource's first callback fired, has been offered one closed event,
   counting the report still to come, if a callback has fired, and none otherwise.
   */
  lemma CloseEventExactly(run: Run, i: nat, k: nat, ch: ChannelId, j: nat, r: Resource)
    requires IsRun(run) && i <= k < |run.states| && ch in run.states[i].core.channels && !Fired(run, i, r)
    requires MadeBy(run, k, j, r) && Listening(run.states[k].core, ch)
    requires run.states[k].core.channels[ch].session == run.labels[j].session
    ensures Told(run.states[k], ch, r, run.labels[j].session) == if Fired(run, k, r) then 1 else 0
  {
    ResourcesAreMade(run, k, r);
    FlagReports(run, i, k, ch, r);
  }

  lemma FlagReports(run: Run, i: nat, k: nat, ch: ChannelId, r: Resource)
    requires IsRun(run) && i <= k < |run.states| && ch in run.states[i].core.channels && !Fired(run, i, r)
    requires r in run.states[k].closers && Listening(run.states[k].core, ch)
    requires run.states[k].core.channels[ch].session == run.states[k].closers[r].session
    ensures Reports(run.states[k], ch, r) == if Fired(run, k, r) then 1 else 0
  {
    RunCloses(run, i, r);
    RunCloses(run, k, r);
    if Fired(run, k, r) {
      var j := FirstFired(run, i, k, r);
      RunGrows(run, i, j, ch);
      NoReportYet(run, j, ch, r);
      RunReports(run, j + 1, k, ch, r);
    } else {
      NoReportYet(run, k, ch, r);
    }
  }

  /**
   A channel opened after a callback fired is offered the closed event only if the report was
   still waiting then: once, counting the report still to come, for as long as it listens in the
   resource's session, and never if the report had run.
   */
  lemma LateChannelReports(run: Run, i: nat, k: nat, ch: ChannelId, j: nat, r: Resource)
    requires IsRun(run) && i < k < |run.states| && MadeBy(run, i, j, r) && Fired(run, i, r)
    requires ch !in run.states[i].core.channels && ch in run.states[i + 1].core.channels
    ensures ch in run.states[k].core.channels
    ensures var s := run.labels[j].session;
            var st, end := run.states[i], run.states[k];
            var waiting := if Task(s, Closed(r), None) in st.pending then 1 else 0;
            && Told(end, ch, r, s) <= waiting
            && (Listening(end.core, ch) && end.core.channels[ch].session == s ==> Told(end, ch, r, s) == waiting)
  {
    ResourcesAreMade(run, i, r);
    RunCloses(run, i, r);
    OpenedUnreported(run, i, ch, r);
    RunReports(run, i + 1, k, ch, r);
  }

  lemma OpenedUnreported(run: Run, i: nat, ch: ChannelId, r: Resource)
    requires IsRun(run) && i < |run.labels| && IsClosed(run.states[i].closers, r)
    requires ch !in run.states[i].core.channels && ch in run.states[i + 1].core.channels
    ensures IsClosed(run.states[i + 1].closers, r) && run.states[i + 1].closers[r] == run.states[i].closers[r]
    ensures Reports(run.states[i + 1], ch, r)
         == if CloseTask(run.states[i].closers[r].session, r) in run.states[i].pending then 1 else 0
  {
    OpenedAt(run, i, ch, r);
    OpenedUnseen(run, i + 1, ch, r);
    ReportOnce(run, i, r);
  }

  lemma OpenedAt(run: Run, i: nat, ch: ChannelId, r: Resource)
    requires IsRun(run) && i < |run.labels| && IsClosed(run.states[i].closers, r)
    requires ch !in run.states[i].core.channels && ch in run.states[i + 1].core.channels
    ensures JustOpened(run.states[i + 1].core.channels[ch]) && run.states[i + 1].pending == run.states[i].pending
    ensures IsClosed(run.states[i + 1].closers, r) && run.states[i + 1].closers[r] == run.states[i].closers[r]
  {
    assert ReachedAt(run, i + 1);
    OpenedWithinHead(run.states[i], run.labels[i], ch);
    QuietReports(run.states[i], run.labels[i], r);
  }

  /** No subscription starts with a closed event. */
  lemma OpenedUnseen(run: Run, k: nat, ch: ChannelId, r: Resource)
    requires IsRun(run) && k < |run.states| && ch in run.states[k].core.channels
    requires JustOpened(run.states[k].core.channels[ch])
    ensures Seen(run.states[k].core.channels[ch], Closed(r)) == 0
  {
    ReachableOk(run, k);
    UnseenIn(ch, run.states[k].core.channels[ch], run.states[k], r);
  }

  lemma UnseenIn(ch: ChannelId, channel: Channel, st: System, r: Resource)
    requires ChannelOk(ch, channel, st) && JustOpened(channel)
    ensures Seen(channel, Closed(r)) == 0
  {
    assert Closed(r) !in channel.head;
    assert Closed(r) !in channel.log;
  }

  lemma ReportOnce(run: Run, k: nat, r: Resource)
    requires IsRun(run) && k < |run.states| && IsClosed(run.states[k].closers, r)
    ensures var report := CloseTask(run.states[k].closers[r].session, r);
            run.states[k].pending[report] == if report in run.states[k].pending then 1 else 0
  {
    ReachableTasks(run, k);
  }

  // ---------------------------------------------------------------- closed sessions stay silent

  /** No channel of `s` is opened or carries anything more in `after` than in `before`. */
  ghost predicate Silent(before: map<ChannelId, Channel>, after: map<ChannelId, Channel>, s: SessionId) {
    forall ch :: ch in after && after[ch].session == s ==>
      && ch in before && before[ch].session == s
      && after[ch].log == before[ch].log && after[ch].refused == before[ch].refused
  }

  lemma SilentStep(st: System, l: Label, s: SessionId)
    requires Enabled(st, l) && s !in st.core.sessions && s !in st.core.senders
    ensures Silent(st.core.channels, Next(st, l).core.channels, s)
  {
    if IsRequest(l) {
      RequestStep(st, l);
    } else if l.RunTask? {
      SilentBroadcast(st.core, l.task.session, l.task.event, l.task.exclude, s);
    } else if IsChannelStep(l) {
      SilentChannelStep(st, l, s);
    } else {
      OtherStep(st, l);
    }
  }

  lemma SilentUpdate(before: map<ChannelId, Channel>, ch: ChannelId, channel: Channel, s: SessionId)
    requires if ch in before then ReceiverMoved(before[ch], channel) else channel.session != s
    ensures Silent(before, before[ch := channel], s)
  {
  }

  lemma SilentChannelStep(st: System, l: Label, s: SessionId)
    requires Enabled(st, l) && IsChannelStep(l) && !l.RunTask? && s !in st.core.sessions
    ensures Silent(st.core.channels, Next(st, l).core.channels, s)
  {
    var x := OneChannelStep(st, l);
    if Next(st, l).core.channels != st.core.channels {
      SilentUpdate(st.core.channels, x, Next(st, l).core.channels[x], s);
    }
  }

  lemma SilentBroadcast(c: Core, x: SessionId, e: Event, exclude: Option<ParticipantId>, s: SessionId)
    requires s !in c.senders
    ensures Silent(c.channels, Broadcast(c, x, e, exclude).channels, s)
  {
  }

  lemma SendersAreLive(run: Run, k: nat)
    requires IsRun(run) && k < |run.states|
    ensures run.states[k].core.senders.Keys <= run.states[k].core.sessions.Keys
  {
    ReachableOk(run, k);
  }

  lemma {:induction false} GoneRun(run: Run, i: nat, k: nat, s: SessionId)
    requires IsRun(run) && i <= k < |run.states|
    requires s in run.states[i].used && s !in run.states[i].core.sessions
    ensures s in run.states[k].used && s !in run.states[k].core.sessions && s !in run.states[k].core.senders
    ensures Silent(run.states[i].core.channels, run.states[k].core.channels, s)
    decreases k
  {
    SendersAreLive(run, k);
    if i < k {
      GoneRun(run, i, k - 1, s);
      GoneAt(run, k - 1, s);
    }
  }

  lemma GoneAt(run: Run, j: nat, s: SessionId)
    requires IsRun(run) && j < |run.labels| && s in run.states[j].used
    requires s !in run.states[j].core.sessions && s !in run.states[j].core.senders
    ensures s in run.states[j + 1].used && s !in run.states[j + 1].core.sessions
    ensures Silent(run.states[j].core.channels, run.states[j + 1].core.channels, s)
  {
    assert ReachedAt(run, j + 1);
    GoneStep(run.states[j], run.labels[j], s);
    SilentStep(run.states[j], run.labels[j], s);
  }

  /** Every request on `s` that needs the session is refused, whatever the rest of the request says. */
  ghost predicate Refused(c: Core, s: SessionId) {
    && (forall p :: CoreModel.Join(c, s, p) == Reply(c, Err(SessionNotFound)))
    && (forall p, direction, made ::
          CoreModel.CreateTransport(c, s, p, direction, made) == Reply(c, Err(SessionNotFound)))
    && (forall p, t, kind, made ::
          CoreModel.CreateProducer(c, s, p, t, kind, made) == Reply(c, Err(SessionNotFound)))
    && (forall p, t, q, canConsume, made ::
          CoreModel.CreateConsumer(c, s, p, t, q, canConsume, made) == Reply(c, Err(SessionNotFound)))
    && (forall p, ch, capacity, alive, order ::
          CoreModel.Subscribe(c, s, p, ch, capacity, alive, order) == Subscription(c, Failed(SessionNotFound)))
  }

  /**
   Closed sessions stay silent: from the close on, in every run, no channel of the session
   receives anything more, its waiting broadcasts do nothing, and requests on it fail.
   */
  lemma ClosedSessionsStaySilent(run: Run, i: nat, k: nat, s: SessionId)
    requires IsRun(run) && i < k < |run.states| && run.labels[i] == Close(s) && s in run.states[i].core.sessions
    ensures var closed, end := run.states[i + 1], run.states[k];
            && s !in end.core.sessions && s !in end.core.senders
            && Silent(closed.core.channels, end.core.channels, s)
            && Refused(end.core, s) && BroadcastsDoNothing(end, s)
  {
    ClosedAt(run, i, s);
    GoneRun(run, i + 1, k, s);
    RefusedWhenGone(run.states[k].core, s);
    NothingToDo(run.states[k], s);
  }

  /** Running any waiting broadcast for `s` leaves the core as it is. */
  ghost predicate BroadcastsDoNothing(st: System, s: SessionId) {
    forall t :: t in st.pending && t.session == s && st.lock.None? ==> Next(st, RunTask(t)).core == st.core
  }

  lemma NothingToDo(st: System, s: SessionId)
    requires s !in st.core.senders
    ensures BroadcastsDoNothing(st, s)
  {
    forall t | t in st.pending && t.session == s && st.lock.None? ensures Next(st, RunTask(t)).core == st.core {
      NoOpTask(st, t);
    }
  }

  lemma ClosedAt(run: Run, i: nat, s: SessionId)
    requires IsRun(run) && i < |run.labels| && run.labels[i] == Close(s) && s in run.states[i].core.sessions
    ensures s in run.states[i + 1].used && s !in run.states[i + 1].core.sessions
  {
    ReachableOk(run, i);
    assert ReachedAt(run, i + 1);
  }

  lemma RefusedWhenGone(c: Core, s: SessionId)
    requires s !in c.sessions
    ensures Refused(c, s)
  {
  }

  lemma NoOpTask(st: System, t: Task)
    requires t in st.pending && st.lock.None? && t.session !in st.core.senders
    ensures Next(st, RunTask(t)).core == st.core
  {
    NobodyToTell(st.core, t.session, t.event, t.exclude);
  }

  lemma NobodyToTell(c: Core, s: SessionId, e: Event, exclude: Option<ParticipantId>)
    requires s !in c.senders
    ensures Broadcast(c, s, e, exclude) == c
  {
    assert Broadcast(c, s, e, exclude).channels == c.channels;
  }

  // ---------------------------------------------------------------- replays that do not fit

  /** The producers that participants of the session other than `p` hold. */
  function OthersProducers(session: Session, p: ParticipantId): set<ProducerId> {
    set o, q | o in session.participants && o != p && q in session.participants[o].producers :: q
  }

  function ReplayedIds(events: seq<Event>): set<ProducerId> {
    set e | e in events && e.NewProducer? :: e.producer
  }

  /** A replay without repeated ids is as long as its set of ids. */
  lemma {:induction false} DistinctReplaySize(p: ParticipantId, order: seq<Listing>)
    requires Distinct(order) && forall x, y :: x in order && y in order && x.producer == y.producer ==> x == y
    ensures |Replay(p, order)| == |ReplayedIds(Replay(p, order))|
    decreases order
  {
    if order != [] {
      var x := order[0];
      var rest := Replay(p, order[1..]);
      assert order == [x] + order[1..];
      DistinctReplaySize(p, order[1..]);
      if x.owner != p {
        if x.producer in ReplayedIds(rest) {
          var e :| e in rest && e.NewProducer? && e.producer == x.producer;
          ReplayEvents(p, order[1..], e);
          assert false;
        }
        assert Replay(p, order) == [NewProducer(x.producer, x.kind)] + rest;
        IdsOfCons(NewProducer(x.producer, x.kind), rest);
      } else {
        assert Replay(p, order) == rest;
      }
    }
  }

  lemma IdsOfCons(e: Event, rest: seq<Event>)
    requires e.NewProducer?
    ensures ReplayedIds([e] + rest) == ReplayedIds(rest) + {e.producer}
  {
    assert e in [e] + rest;
    forall x | x in rest ensures x in [e] + rest { }
  }

  lemma ReplaySize(st: System, s: SessionId, p: ParticipantId, order: seq<Listing>)
    requires OriginsOk(st.core.sessions, st.origins, st.used, st.closers)
    requires s in st.core.sessions && IsListing(st.core.sessions[s], order)
    ensures |Replay(p, order)| == |OthersProducers(st.core.sessions[s], p)|
  {
    forall x, y | x in order && y in order && x.producer == y.producer ensures x == y {
      ListingsHaveOrigins(st, s, order, x);
      ListingsHaveOrigins(st, s, order, y);
    }
    DistinctReplaySize(p, order);
    ReplayIsExact(st, s, p, order);
    ExactlyTheirs(st.core.sessions, s, p, Replay(p, order));
  }

  lemma ExactlyTheirs(sessions: map<SessionId, Session>, s: SessionId, p: ParticipantId, events: seq<Event>)
    requires s in sessions && AnnouncesOthers(sessions, s, p, events)
    ensures ReplayedIds(events) == OthersProducers(sessions[s], p)
  {
    forall q | q in OthersProducers(sessions[s], p) ensures q in ReplayedIds(events) {
      var o :| o in sessions[s].participants && o != p && q in sessions[s].participants[o].producers;
      var origin := Origin(s, o, sessions[s].participants[o].producers[q]);
      assert Holds(sessions, q, origin);
      assert NewProducer(q, origin.kind) in events;
    }
    forall e | e in events ensures e.NewProducer? && e.producer in OthersProducers(sessions[s], p) {
      var o :| AnnouncedAs(sessions, e, o, s, p);
    }
  }

  /**
   Replay bound: a subscription goes through without waiting exactly when the confirmation
   and one announcement per producer of the others fit the channel; otherwise it is left
   holding the lock.
   */
  lemma ReplayBound(run: Run, i: nat, s: SessionId, p: ParticipantId, ch: ChannelId, order: seq<Listing>)
    requires IsRun(run) && i < |run.labels| && run.labels[i] == Label.Subscribe(s, p, ch, order)
    requires s in run.states[i].core.sessions
    ensures var st := run.states[i];
            var fits := 1 + |OthersProducers(st.core.sessions[s], p)| <= st.capacity;
            && CoreModel.Subscribe(st.core, s, p, ch, st.capacity, true, order).outcome
               == (if fits then Completed else Suspended)
            && run.states[i + 1].lock == if fits then None else Some(ch)
  {
    ReachableOk(run, i);
    assert ReachedAt(run, i + 1);
    ReplaySize(run.states[i], s, p, order);
  }

  /** Every queue stays within the capacity its channel was opened with. */
  lemma QueuesAreBounded(run: Run, k: nat, ch: ChannelId)
    requires IsRun(run) && k < |run.states| && ch in run.states[k].core.channels
    ensures var channel := run.states[k].core.channels[ch];
            0 <= |channel.log| - channel.taken <= channel.capacity == run.states[k].capacity
  {
    ReachableOk(run, k);
    assert ChannelOk(ch, run.states[k].core.channels[ch], run.states[k]);
  }

  /** What a suspended subscription leaves possible keeps it suspended, short of dropping it. */
  lemma SuspendedStep(st: System, l: Label, ch: ChannelId)
    requires st.lock == Some(ch) && Enabled(st, l) && l != CancelSuspended && ch in st.core.channels
    ensures !NeedsLock(l) && Next(st, l).lock == Some(ch)
    ensures Next(st, l).core == st.core.(channels := Next(st, l).core.channels)
    ensures ch in Next(st, l).core.channels && Next(st, l).core.channels[ch] == st.core.channels[ch]
  {
  }

  lemma {:induction false} SuspendedRun(run: Run, i: nat, k: nat, ch: ChannelId)
    requires IsRun(run) && i <= k < |run.states| && run.states[i].lock == Some(ch) && ch in run.states[i].core.channels
    requires CancelSuspended !in run.labels[i..k]
    ensures forall j :: i <= j < k ==> !NeedsLock(run.labels[j])
    ensures run.states[k].lock == Some(ch)
    ensures run.states[k].core == run.states[i].core.(channels := run.states[k].core.channels)
    ensures ch in run.states[k].core.channels
    ensures run.states[k].core.channels[ch] == run.states[i].core.channels[ch]
    decreases k
  {
    if i < k {
      assert run.labels[i..k] == run.labels[i..k - 1] + [run.labels[k - 1]];
      SuspendedRun(run, i, k - 1, ch);
      assert ReachedAt(run, k);
      SuspendedStep(run.states[k - 1], run.labels[k - 1], ch);
    }
  }

  /**
   A subscription that does not fit stops the server: from then on no request and no broadcast
   runs at all and its full channel is never emptied, until the caller drops it, which it can
   do at any time and which frees the lock.
   */
  lemma SuspensionStopsTheServer(run: Run, i: nat, k: nat, ch: ChannelId)
    requires IsRun(run) && i <= k < |run.states| && run.states[i].lock == Some(ch)
    requires CancelSuspended !in run.labels[i..k]
    ensures forall j :: i <= j < k ==> !NeedsLock(run.labels[j])
    ensures var st, end := run.states[i], run.states[k];
            && end.lock == Some(ch) && end.core == st.core.(channels := end.core.channels)
            && ch in end.core.channels
            && (var channel := end.core.channels[ch];
                channel.taken == 0 && |channel.log| == channel.capacity < |channel.head|)
            && Enabled(end, CancelSuspended) && Next(end, CancelSuspended).lock == None
  {
    ReachableOk(run, i);
    SuspendedRun(run, i, k, ch);
  }
}
