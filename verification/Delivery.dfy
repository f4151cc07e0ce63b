/** What each channel carries and in which order: confirmation, replay, then broadcasts as they ran. */
module Delivery {
  import opened Types
  import opened CoreModel
  import opened SystemModel
  import opened SystemFrames
  import opened SystemInvariant
  import opened SystemSteps
  import opened Announcements

  // ---------------------------------------------------------------- confirmation first

  /**
   Every channel that carries anything starts with the one confirmation of its session, and
   a channel that lacks part of its replay carries nothing else and never will.
   */
  lemma ConfirmationFirst(run: Run, k: nat, ch: ChannelId, i: nat)
    requires IsRun(run) && k < |run.states| && ch in run.states[k].core.channels
    requires i < |run.states[k].core.channels[ch].log|
    ensures var st := run.states[k];
            var channel := st.core.channels[ch];
            && (channel.log[i].SubscriptionConfirmed? <==> i == 0)
            && channel.log[0] == SubscriptionConfirmed(channel.session)
            && (channel.log <= channel.head || channel.head <= channel.log)
            && (!(channel.head <= channel.log) ==> st.lock == Some(ch) || !channel.alive)
  {
    ReachableOk(run, k);
    var st := run.states[k];
    ConfirmationShape(st, ch, st.core.channels[ch], i);
  }

  lemma ConfirmationShape(st: System, ch: ChannelId, channel: Channel, i: nat)
    requires ChannelOk(ch, channel, st) && i < |channel.log|
    ensures channel.log[i].SubscriptionConfirmed? <==> i == 0
    ensures channel.log[0] == SubscriptionConfirmed(channel.session)
    ensures channel.log <= channel.head || channel.head <= channel.log
    ensures !(channel.head <= channel.log) ==> st.lock == Some(ch) || !channel.alive
  {
    if HeadSent(channel) {
      assert channel.log[..|channel.head|][0] == channel.log[0];
      if i < |channel.head| { assert channel.log[..|channel.head|][i] == channel.log[i]; }
    } else {
      assert channel.head[..|channel.log|][0] == channel.head[0];
      assert channel.head[..|channel.log|][i] == channel.head[i];
    }
  }

  // ---------------------------------------------------------------- then broadcasts, in the order they ran

  /** Step `j` of the run broadcasts to the channel, and somebody holds its receiving end. */
  ghost predicate OfferedAt(run: Run, j: nat, ch: ChannelId)
    requires j < |run.labels| < |run.states|
  {
    var c, l := run.states[j].core, run.labels[j];
    && l.RunTask? && ch in c.channels && c.channels[ch].alive
    && Targeted(c.senders, ch, c.channels[ch], l.task.session, l.task.exclude)
  }

  /** Whether the channel had room for one more event before step `j`. */
  ghost predicate RoomAt(run: Run, j: nat, ch: ChannelId)
    requires j < |run.states|
  {
    ch in run.states[j].core.channels
    && var channel := run.states[j].core.channels[ch];
       |channel.log| - channel.taken < channel.capacity
  }

  /** The steps from `i` up to `k` that offered the channel an event when it had, or had not, room. */
  ghost function OfferSteps(run: Run, i: nat, k: nat, ch: ChannelId, room: bool): (steps: seq<nat>)
    requires i <= k <= |run.labels| < |run.states|
    ensures forall x :: 0 <= x < |steps| ==> i <= steps[x] < k && run.labels[steps[x]].RunTask?
    ensures forall x, y :: 0 <= x < y < |steps| ==> steps[x] < steps[y]
    decreases k
  {
    if i == k then []
    else
      OfferSteps(run, i, k - 1, ch, room)
      + if OfferedAt(run, k - 1, ch) && RoomAt(run, k - 1, ch) == room then [k - 1] else []
  }

  /** The events that these steps broadcast. */
  ghost function EventsOf(run: Run, steps: seq<nat>): (events: seq<Event>)
    requires forall x :: 0 <= x < |steps| ==> steps[x] < |run.labels| && run.labels[steps[x]].RunTask?
    ensures |events| == |steps|
    ensures forall x :: 0 <= x < |steps| ==> events[x] == run.labels[steps[x]].task.event
  {
    seq(|steps|, x requires 0 <= x < |steps| => run.labels[steps[x]].task.event)
  }

  /** A broadcast adds its event to what the channel accepted, or to what it refused, and nothing else does. */
  lemma OfferStep(run: Run, j: nat, ch: ChannelId)
    requires IsRun(run) && j < |run.labels| && ch in run.states[j].core.channels
    ensures ch in run.states[j + 1].core.channels
    ensures var before, after := run.states[j].core.channels[ch], run.states[j + 1].core.channels[ch];
            if OfferedAt(run, j, ch) then
              var e := run.labels[j].task.event;
              if RoomAt(run, j, ch) then after.log == before.log + [e] && after.refused == before.refused
              else after.log == before.log && after.refused == before.refused + [e]
            else
              after.log == before.log && after.refused == before.refused
  {
    assert ReachedAt(run, j + 1);
    if !run.labels[j].RunTask? { QuietStep(run.states[j], run.labels[j], ch); }
  }

  /** What the channel accepted, or what it refused. */
  function Offered(channel: Channel, room: bool): seq<Event> {
    if room then channel.log else channel.refused
  }

  lemma {:induction false} LogIsOffers(run: Run, i: nat, k: nat, ch: ChannelId, room: bool)
    requires IsRun(run) && i <= k < |run.states| && ch in run.states[i].core.channels
    ensures ch in run.states[k].core.channels
    ensures Offered(run.states[k].core.channels[ch], room)
         == Offered(run.states[i].core.channels[ch], room) + EventsOf(run, OfferSteps(run, i, k, ch, room))
    decreases k
  {
    if i < k {
      LogIsOffers(run, i, k - 1, ch, room);
      OfferStep(run, k - 1, ch);
      LastOffer(run, i, k, ch, room);
    }
  }

  lemma LastOffer(run: Run, i: nat, k: nat, ch: ChannelId, room: bool)
    requires i < k <= |run.labels| < |run.states|
    ensures EventsOf(run, OfferSteps(run, i, k, ch, room))
         == EventsOf(run, OfferSteps(run, i, k - 1, ch, room))
            + if OfferedAt(run, k - 1, ch) && RoomAt(run, k - 1, ch) == room then [run.labels[k - 1].task.event] else []
  {
  }

  /** What the channel carries past its head. */
  function Heard(channel: Channel): (events: seq<Event>) {
    if HeadSent(channel) then channel.log[|channel.head|..] else []
  }

  /** Past its head a channel carries what it was offered when it had room, in order. */
  lemma {:induction false} HeardIsOffers(run: Run, k: nat, ch: ChannelId)
    requires IsRun(run) && k < |run.states|
    ensures var steps := OfferSteps(run, 0, k, ch, true);
            if ch in run.states[k].core.channels then Heard(run.states[k].core.channels[ch]) == EventsOf(run, steps)
            else steps == []
    decreases k
  {
    if k == 0 {
      assert ReachedAt(run, 0);
    } else {
      HeardIsOffers(run, k - 1, ch);
      HeardAt(run, k - 1, ch);
      LastOffer(run, 0, k, ch, true);
    }
  }

  lemma HeardAt(run: Run, j: nat, ch: ChannelId)
    requires IsRun(run) && j < |run.labels|
    ensures var before, after := run.states[j].core.channels, run.states[j + 1].core.channels;
            if ch in before then
              && ch in after
              && Heard(after[ch]) == Heard(before[ch]) + (if OfferedAt(run, j, ch) && RoomAt(run, j, ch)
                                                          then [run.labels[j].task.event] else [])
              && (!HeadSent(before[ch]) ==> !OfferedAt(run, j, ch) && !HeadSent(after[ch]))
            else ch in after ==> Heard(after[ch]) == []
  {
    var st := run.states[j];
    assert ReachedAt(run, j + 1);
    if ch in st.core.channels {
      StepGrows(st, run.labels[j], ch);
      OfferStep(run, j, ch);
      HeadSentToListeners(run, j, ch);
    } else if ch in run.states[j + 1].core.channels {
      OpenedWithinHead(st, run.labels[j], ch);
    }
  }

  lemma HeadSentToListeners(run: Run, j: nat, ch: ChannelId)
    requires IsRun(run) && j < |run.states| && ch in run.states[j].core.channels
    ensures var channel := run.states[j].core.channels[ch];
            HeadSent(channel) || !channel.alive || run.states[j].lock.Some?
  {
    ReachableOk(run, j);
    assert ChannelOk(ch, run.states[j].core.channels[ch], run.states[j]);
  }

  lemma OpenedWithinHead(st: System, l: Label, ch: ChannelId)
    requires Enabled(st, l) && ch !in st.core.channels && ch in Next(st, l).core.channels
    ensures JustOpened(Next(st, l).core.channels[ch]) && !l.RunTask? && Next(st, l).pending == st.pending
  {
    if IsRequest(l) {
      RequestStep(st, l);
    } else if l.RunTask? {
      BroadcastParties(st.core, l.task.session, l.task.event, l.task.exclude);
    } else if IsChannelStep(l) {
      var x := OneChannelStep(st, l);
    } else {
      OtherStep(st, l);
    }
  }

  /**
   A subscription fixes what the channel starts with: the confirmation, then the announcement of
   each producer the other participants held at that moment, once each and of nobody else. From
   then on the log is a part of that beginning, or all of it and more.
   */
  lemma ConfirmationThenReplay(
    run: Run, i: nat, k: nat, s: SessionId, p: ParticipantId, ch: ChannelId, order: seq<Listing>)
    requires IsRun(run) && i < k < |run.states| && run.labels[i] == Label.Subscribe(s, p, ch, order)
    requires s in run.states[i].core.sessions
    ensures AnnouncesOthers(run.states[i].core.sessions, s, p, Replay(p, order))
    ensures var end := run.states[k].core.channels;
            && ch in end && end[ch].session == s && end[ch].participant == p
            && end[ch].head == [SubscriptionConfirmed(s)] + Replay(p, order)
            && (end[ch].log <= end[ch].head || end[ch].head <= end[ch].log)
  {
    SubscribedAt(run, i, s, p, ch, order);
    SubscribedReplay(run, i, s, p, order);
    RunGrows(run, i + 1, k, ch);
    if run.states[k].core.channels[ch].log != [] { ConfirmationFirst(run, k, ch, 0); }
  }

  /**
   What follows is exact: as much of the beginning as fits, then, only if all of it fits, the
   events broadcast to the channel that found room, in the order they were broadcast. The channel
   refused the others, in that order too.
   */
  lemma BroadcastsInRunOrder(
    run: Run, i: nat, k: nat, s: SessionId, p: ParticipantId, ch: ChannelId, order: seq<Listing>)
    requires IsRun(run) && i < k < |run.states| && run.labels[i] == Label.Subscribe(s, p, ch, order)
    requires s in run.states[i].core.sessions && ch in run.states[k].core.channels
    ensures var channel := run.states[k].core.channels[ch];
            var accepted := EventsOf(run, OfferSteps(run, i + 1, k, ch, true));
            && channel.log == Begun(Head(s, p, order), run.states[i].capacity) + accepted
            && channel.refused == EventsOf(run, OfferSteps(run, i + 1, k, ch, false))
            && (|Head(s, p, order)| <= run.states[i].capacity || (accepted == [] && channel.refused == []))
  {
    SubscribedAt(run, i, s, p, ch, order);
    LogIsOffers(run, i + 1, k, ch, true);
    LogIsOffers(run, i + 1, k, ch, false);
    if |Head(s, p, order)| > run.states[i].capacity {
      UnsentHearsNothing(run, i + 1, k, ch, true);
      UnsentHearsNothing(run, i + 1, k, ch, false);
    }
  }

  lemma UnsentAt(run: Run, j: nat, ch: ChannelId)
    requires IsRun(run) && j < |run.labels|
    requires ch in run.states[j].core.channels && !HeadSent(run.states[j].core.channels[ch])
    ensures ch in run.states[j + 1].core.channels && !HeadSent(run.states[j + 1].core.channels[ch])
    ensures !OfferedAt(run, j, ch)
  {
    HeardAt(run, j, ch);
  }

  /** A channel that lacks part of its head is offered nothing. */
  lemma {:induction false} UnsentHearsNothing(run: Run, i: nat, k: nat, ch: ChannelId, room: bool)
    requires IsRun(run) && i <= k < |run.states|
    requires ch in run.states[i].core.channels && !HeadSent(run.states[i].core.channels[ch])
    ensures ch in run.states[k].core.channels && !HeadSent(run.states[k].core.channels[ch])
    ensures OfferSteps(run, i, k, ch, room) == []
    decreases k
  {
    if i < k {
      UnsentHearsNothing(run, i, k - 1, ch, room);
      UnsentAt(run, k - 1, ch);
    }
  }

  lemma SubscribedReplay(run: Run, i: nat, s: SessionId, p: ParticipantId, order: seq<Listing>)
    requires IsRun(run) && i < |run.states| && s in run.states[i].core.sessions
    requires IsListing(run.states[i].core.sessions[s], order)
    ensures AnnouncesOthers(run.states[i].core.sessions, s, p, Replay(p, order))
  {
    ReachableOk(run, i);
    ReplayIsExact(run.states[i], s, p, order);
  }

  /**
   Nothing passes a listening channel by: the steps that offered it an event since it was
   opened are exactly the broadcasts to its session that did not leave its participant out.
   */
  lemma ListenersHearEverything(run: Run, i: nat, k: nat, j: nat, ch: ChannelId)
    requires IsRun(run) && i <= j < k < |run.states| && ch in run.states[i].core.channels
    requires Listening(run.states[k].core, ch)
    ensures var channel := run.states[k].core.channels[ch];
            var l := run.labels[j];
            var offered :=
              l.RunTask? && l.task.session == channel.session && l.task.exclude != Some(channel.participant);
            && (j in OfferSteps(run, i, k, ch, true) <==> offered && RoomAt(run, j, ch))
            && (j in OfferSteps(run, i, k, ch, false) <==> offered && !RoomAt(run, j, ch))
  {
    RunGrows(run, i, j, ch);
    RunGrows(run, j, k, ch);
    StaysListening(run, j, k, ch);
    OfferStepsAre(run, i, k, j, ch, true);
    OfferStepsAre(run, i, k, j, ch, false);
  }

  lemma {:induction false} OfferStepsAre(run: Run, i: nat, k: nat, j: nat, ch: ChannelId, room: bool)
    requires i <= j < k <= |run.labels| < |run.states|
    ensures j in OfferSteps(run, i, k, ch, room) <==> OfferedAt(run, j, ch) && RoomAt(run, j, ch) == room
    decreases k
  {
    if j < k - 1 { OfferStepsAre(run, i, k - 1, j, ch, room); }
  }

  /** A channel that listens has listened ever since it was opened. */
  lemma {:induction false} StaysListening(run: Run, i: nat, k: nat, ch: ChannelId)
    requires IsRun(run) && i <= k < |run.states| && ch in run.states[i].core.channels
    requires Listening(run.states[k].core, ch)
    ensures Listening(run.states[i].core, ch)
    decreases k
  {
    if i < k {
      RunGrows(run, i, k - 1, ch);
      ListeningAt(run, k - 1, ch);
      StaysListening(run, i, k - 1, ch);
    }
  }

  lemma ListeningAt(run: Run, j: nat, ch: ChannelId)
    requires IsRun(run) && j < |run.labels| && ch in run.states[j].core.channels
    requires Listening(run.states[j + 1].core, ch)
    ensures Listening(run.states[j].core, ch)
  {
    assert ReachedAt(run, j + 1);
    StepListening(run.states[j], run.labels[j], ch);
  }

  // ---------------------------------------------------------------- one order for everybody

  lemma StepFinishes(st: System, l: Label)
    requires Enabled(st, l)
    ensures Next(st, l).finished == st.finished + if l.RunTask? then multiset{l.task} else multiset{}
  {
    if IsRequest(l) { RequestStep(st, l); }
  }

  lemma {:induction false} RunFinishes(run: Run, i: nat, k: nat)
    requires IsRun(run) && i <= k < |run.states|
    ensures run.states[i].finished <= run.states[k].finished
    decreases k
  {
    if i < k {
      RunFinishes(run, i, k - 1);
      FinishesAt(run, k - 1);
    }
  }

  lemma FinishesAt(run: Run, j: nat)
    requires IsRun(run) && j < |run.labels|
    ensures run.labels[j].RunTask? ==> run.labels[j].task in run.states[j].pending
    ensures run.states[j + 1].finished
         == run.states[j].finished + if run.labels[j].RunTask? then multiset{run.labels[j].task} else multiset{}
  {
    assert ReachedAt(run, j + 1);
    StepFinishes(run.states[j], run.labels[j]);
  }

  /** No event is broadcast a second time. */
  lemma BroadcastOnce(run: Run, i: nat, j: nat)
    requires IsRun(run) && i < j < |run.labels| && run.labels[i].RunTask? && run.labels[j].RunTask?
    ensures run.labels[i].task.event != run.labels[j].task.event
  {
    var t, st := run.labels[i].task, run.states[j];
    FinishesAt(run, i);
    FinishesAt(run, j);
    RunFinishes(run, i + 1, j);
    ReachableTasks(run, j);
    assert t in st.finished;
    OneTaskPerEvent(st, t, run.labels[j].task);
  }

  lemma ReachableTasks(run: Run, k: nat)
    requires IsRun(run) && k < |run.states|
    ensures var st := run.states[k]; TasksOk(st.pending, st.finished, st.origins, st.closers)
  {
    ReachableOk(run, k);
  }

  lemma OneTaskPerEvent(st: System, done: Task, waiting: Task)
    requires TasksOk(st.pending, st.finished, st.origins, st.closers)
    requires done in st.finished && waiting in st.pending
    ensures done.event != waiting.event
  {
    assert TaskHasSource(done, st.origins, st.closers);
    assert TaskHasSource(waiting, st.origins, st.closers);
    assert st.pending[done] + st.finished[done] == 1;
  }

  /**
   All channels agree on the order of broadcasts: of two events that both channels carry past
   their heads, the one that comes first on the one comes first on the other.
   */
  lemma BroadcastOrderAgrees(run: Run, k: nat, a: ChannelId, b: ChannelId, x: nat, y: nat, x': nat, y': nat)
    requires IsRun(run) && k < |run.states|
    requires a in run.states[k].core.channels && b in run.states[k].core.channels
    requires var left, right := Heard(run.states[k].core.channels[a]), Heard(run.states[k].core.channels[b]);
             && x < y < |left| && x' < |right| && y' < |right| && left[x] == right[x'] && left[y] == right[y']
    ensures x' < y'
  {
    HeardIsOffers(run, k, a);
    HeardIsOffers(run, k, b);
    var steps, others := OfferSteps(run, 0, k, a, true), OfferSteps(run, 0, k, b, true);
    SameBroadcast(run, steps[x], others[x']);
    SameBroadcast(run, steps[y], others[y']);
  }

  lemma SameBroadcast(run: Run, i: nat, j: nat)
    requires IsRun(run) && i < |run.labels| && j < |run.labels| && run.labels[i].RunTask? && run.labels[j].RunTask?
    requires run.labels[i].task.event == run.labels[j].task.event
    ensures i == j
  {
    if i < j { BroadcastOnce(run, i, j); }
    if j < i { BroadcastOnce(run, j, i); }
  }
}
