/** Who is subscribed over which channel, and what became of its receiving end, read off a run. */
module Subscriptions {
  import opened Types
  import opened CoreModel
  import opened SystemModel
  import opened SystemFrames
  import opened SystemSteps
  import opened Announcements
  import opened Delivery

  // ---------------------------------------------------------------- senders

  /** The channel over which the participant is subscribed. */
  function SenderOf(c: Core, s: SessionId, p: ParticipantId): Option<ChannelId> {
    if s in c.senders && p in c.senders[s] then Some(c.senders[s][p]) else None
  }

  /** The step is a subscription of `p` to the live session, even one that its caller drops. */
  predicate Subscribes(st: System, l: Label, s: SessionId, p: ParticipantId) {
    (l.Subscribe? || l.AbandonSubscribe?) && l.session == s && l.participant == p && s in st.core.sessions
  }

  lemma InstallSender(c: Core, ch: ChannelId, channel: Channel, s: SessionId, p: ParticipantId)
    ensures SenderOf(Install(c, ch, channel), s, p)
         == if s == channel.session && p == channel.participant then Some(ch) else SenderOf(c, s, p)
  {
  }

  lemma SubscribeSender(
    c: Core, x: SessionId, y: ParticipantId, ch: ChannelId, capacity: nat, alive: bool, order: seq<Listing>,
    s: SessionId, p: ParticipantId)
    ensures SenderOf(CoreModel.Subscribe(c, x, y, ch, capacity, alive, order).core, s, p)
         == if x in c.sessions && s == x && p == y then Some(ch) else SenderOf(c, s, p)
  {
    var d := CoreModel.Subscribe(c, x, y, ch, capacity, alive, order).core;
    if x in c.sessions { InstallSender(c, ch, d.channels[ch], s, p); }
  }

  lemma {:induction false} CloseAllSenders(c: Core, order: seq<SessionId>, s: SessionId, p: ParticipantId)
    requires s in CloseAll(c, order).sessions
    ensures SenderOf(CloseAll(c, order), s, p) == SenderOf(c, s, p)
    decreases order
  {
    if order != [] {
      CloseAllOnlyRemoves(CloseSession(c, order[0]), order[1..], s);
      CloseAllSenders(CloseSession(c, order[0]), order[1..], s, p);
    }
  }

  lemma ChannelStepSender(st: System, l: Label, s: SessionId, p: ParticipantId)
    requires Enabled(st, l) && IsChannelStep(l)
    ensures SenderOf(Next(st, l).core, s, p)
         == if Subscribes(st, l, s, p) then Some(l.channel) else SenderOf(st.core, s, p)
  {
    if l.Subscribe? {
      SubscribeSender(st.core, l.session, l.participant, l.channel, st.capacity, true, l.order, s, p);
    } else if l.AbandonSubscribe? {
      InstallSender(st.core, l.channel, Next(st, l).core.channels[l.channel], s, p);
    }
  }

  lemma AllocationStepSender(st: System, l: Label, s: SessionId, p: ParticipantId)
    requires Enabled(st, l) && !IsRequest(l) && !IsChannelStep(l)
    requires st.core.senders.Keys <= st.core.sessions.Keys <= st.used && Unclosed(Next(st, l), s)
    ensures SenderOf(Next(st, l).core, s, p) == SenderOf(st.core, s, p)
  {
    if l.Register? {
      RegisterFrame(st.core, l.session, l.participant);
    } else if l.Shutdown? {
      if s in Next(st, l).core.sessions {
        CloseAllSenders(st.core, l.keys, s, p);
      } else {
        AllocationStep(st, l);
      }
    }
  }

  /** The step changes whom a subscription concerns, and nobody else. */
  lemma SenderStep(st: System, l: Label, s: SessionId, p: ParticipantId)
    requires Enabled(st, l) && st.core.senders.Keys <= st.core.sessions.Keys <= st.used && Unclosed(Next(st, l), s)
    ensures Unclosed(st, s)
    ensures SenderOf(Next(st, l).core, s, p)
         == if Subscribes(st, l, s, p) then Some(l.channel) else SenderOf(st.core, s, p)
  {
    if s in st.used && s !in st.core.sessions { GoneStep(st, l, s); }
    if IsRequest(l) {
      RequestStep(st, l);
    } else if IsChannelStep(l) {
      ChannelStepSender(st, l, s, p);
    } else {
      AllocationStepSender(st, l, s, p);
    }
  }

  lemma SenderAt(run: Run, j: nat, s: SessionId, p: ParticipantId)
    requires IsRun(run) && j < |run.labels| && Unclosed(run.states[j + 1], s)
    ensures Unclosed(run.states[j], s)
    ensures SenderOf(run.states[j + 1].core, s, p)
         == if Subscribes(run.states[j], run.labels[j], s, p) then Some(run.labels[j].channel)
            else SenderOf(run.states[j].core, s, p)
  {
    ReachableOk(run, j);
    assert ReachedAt(run, j + 1);
    SenderStep(run.states[j], run.labels[j], s, p);
  }

  /** The channel of the last subscription of `p` to `s` in the first `k` steps. */
  ghost function LastSubscribed(run: Run, k: nat, s: SessionId, p: ParticipantId): Option<ChannelId>
    requires k <= |run.labels| < |run.states|
    decreases k
  {
    if k == 0 then None
    else if Subscribes(run.states[k - 1], run.labels[k - 1], s, p) then Some(run.labels[k - 1].channel)
    else LastSubscribed(run, k - 1, s, p)
  }

  /** Until a session is closed, a participant is subscribed over the channel of its last subscription. */
  lemma {:induction false} SenderIsLastSubscribed(run: Run, k: nat, s: SessionId, p: ParticipantId)
    requires IsRun(run) && k < |run.states| && Unclosed(run.states[k], s)
    ensures SenderOf(run.states[k].core, s, p) == LastSubscribed(run, k, s, p)
    decreases k
  {
    if k == 0 {
      assert ReachedAt(run, 0);
    } else {
      SenderAt(run, k - 1, s, p);
      SenderIsLastSubscribed(run, k - 1, s, p);
    }
  }

  /**
   A subscription takes over: its channel is the one the participant is subscribed over, it
   listens at once, everybody else's subscription stays, and nothing else in the core changes
   but the one new channel.
   */
  lemma SubscriptionTakesOver(
    run: Run, i: nat, s: SessionId, p: ParticipantId, ch: ChannelId, order: seq<Listing>)
    requires IsRun(run) && i < |run.labels| && run.labels[i] == Label.Subscribe(s, p, ch, order)
    requires s in run.states[i].core.sessions
    ensures var c, d := run.states[i].core, run.states[i + 1].core;
            && s in d.senders && p in d.senders[s] && d.senders[s][p] == ch
            && (forall x, y :: x != s || y != p ==> SenderOf(d, x, y) == SenderOf(c, x, y))
            && Listening(d, ch) && ch !in c.channels
            && d.channels.Keys == c.channels.Keys + {ch}
            && (forall x :: x in c.channels ==> d.channels[x] == c.channels[x])
            && d == c.(senders := d.senders, channels := d.channels)
  {
    assert ReachedAt(run, i + 1);
    TakesOver(run.states[i].core, s, p, ch, run.states[i].capacity, order);
  }

  lemma TakesOver(c: Core, s: SessionId, p: ParticipantId, ch: ChannelId, capacity: nat, order: seq<Listing>)
    requires s in c.sessions && ch !in c.channels
    ensures var d := CoreModel.Subscribe(c, s, p, ch, capacity, true, order).core;
            && SenderOf(d, s, p) == Some(ch) && Listening(d, ch)
            && (forall x, y :: x != s || y != p ==> SenderOf(d, x, y) == SenderOf(c, x, y))
            && d.channels.Keys == c.channels.Keys + {ch}
            && (forall x :: x in c.channels ==> d.channels[x] == c.channels[x])
            && d == c.(senders := d.senders, channels := d.channels)
  {
    var d := CoreModel.Subscribe(c, s, p, ch, capacity, true, order).core;
    forall x, y ensures x != s || y != p ==> SenderOf(d, x, y) == SenderOf(c, x, y) {
      SubscribeSender(c, s, p, ch, capacity, true, order, x, y);
    }
  }

  /** A channel that a later subscription replaced never listens again. */
  lemma ReplacedNeverListens(
    run: Run, i: nat, k: nat, s: SessionId, p: ParticipantId, ch: ChannelId, order: seq<Listing>, x: ChannelId)
    requires IsRun(run) && i < k < |run.states| && run.labels[i] == Label.Subscribe(s, p, ch, order)
    requires s in run.states[i].core.sessions && x in run.states[i].core.channels
    requires run.states[i].core.channels[x].session == s && run.states[i].core.channels[x].participant == p
    ensures !Listening(run.states[k].core, x)
  {
    SubscriptionTakesOver(run, i, s, p, ch, order);
    if Listening(run.states[k].core, x) { StaysListening(run, i + 1, k, x); }
  }

  /**
   A subscription whose receiver is gone before anything is sent fails, and leaves behind a
   sender that leads nowhere.
   */
  lemma SubscribingToNobody(
    c: Core, s: SessionId, p: ParticipantId, ch: ChannelId, capacity: nat, order: seq<Listing>)
    requires s in c.sessions && ch !in c.channels
    ensures var r := CoreModel.Subscribe(c, s, p, ch, capacity, false, order);
            && r.outcome == Failed(EventChannelClosed)
            && ch in r.core.channels && r.core.channels[ch].log == [] && !r.core.channels[ch].alive
            && SenderOf(r.core, s, p) == Some(ch)
            && (forall x, y :: x != s || y != p ==> SenderOf(r.core, x, y) == SenderOf(c, x, y))
  {
    forall x, y
      ensures x != s || y != p ==>
                SenderOf(CoreModel.Subscribe(c, s, p, ch, capacity, false, order).core, x, y) == SenderOf(c, x, y)
    {
      SubscribeSender(c, s, p, ch, capacity, false, order, x, y);
    }
  }

  // ---------------------------------------------------------------- channels and their receiving ends

  /** What a step does to the receiving end of a channel that was there before. */
  lemma ReceiverMoves(st: System, l: Label, ch: ChannelId)
    requires Enabled(st, l) && ch in st.core.channels
    ensures ch in Next(st, l).core.channels
    ensures var before, after := st.core.channels[ch], Next(st, l).core.channels[ch];
            && after.taken == before.taken + (if l == Receive(ch) then 1 else 0)
            && (after.alive <==> before.alive && l != DropReceiver(ch) && !(l.CancelSuspended? && st.lock == Some(ch)))
  {
    if IsRequest(l) {
      RequestStep(st, l);
    } else if l.RunTask? {
      BroadcastReceivers(st.core, l.task.session, l.task.event, l.task.exclude, ch);
    } else if IsChannelStep(l) {
      ChannelReceivers(st, l, ch);
    } else {
      OtherStep(st, l);
    }
  }

  lemma BroadcastReceivers(c: Core, s: SessionId, e: Event, exclude: Option<ParticipantId>, ch: ChannelId)
    requires ch in c.channels
    ensures var after := Broadcast(c, s, e, exclude).channels;
            ch in after && after[ch].taken == c.channels[ch].taken && after[ch].alive == c.channels[ch].alive
  {
  }

  lemma ChannelReceivers(st: System, l: Label, ch: ChannelId)
    requires Enabled(st, l) && IsChannelStep(l) && !l.RunTask? && ch in st.core.channels
    ensures ch in Next(st, l).core.channels
    ensures var before, after := st.core.channels[ch], Next(st, l).core.channels[ch];
            && after.taken == before.taken + (if l == Receive(ch) then 1 else 0)
            && (after.alive <==> before.alive && l != DropReceiver(ch) && !(l.CancelSuspended? && st.lock == Some(ch)))
  {
    if l.Subscribe? {
      SubscribeOpens(st.core, l.session, l.participant, l.channel, st.capacity, l.order);
    }
  }

  /** A channel is opened by a subscription to a live session, with its receiver unless the caller is gone. */
  lemma OpensChannel(st: System, l: Label, ch: ChannelId)
    requires Enabled(st, l) && ch !in st.core.channels && ch in Next(st, l).core.channels
    ensures (l.Subscribe? || l.AbandonSubscribe?) && l.channel == ch && l.session in st.core.sessions
    ensures var channel := Next(st, l).core.channels[ch];
            && channel.session == l.session && channel.participant == l.participant
            && channel.taken == 0 && (channel.alive <==> l.Subscribe?)
  {
    if IsRequest(l) {
      RequestStep(st, l);
    } else if l.RunTask? {
      BroadcastParties(st.core, l.task.session, l.task.event, l.task.exclude);
    } else if !IsChannelStep(l) {
      OtherStep(st, l);
    }
  }

  /** How many events the receiver took in the first `k` steps. */
  function Received(run: Run, k: nat, ch: ChannelId): nat
    requires k <= |run.labels|
    decreases k
  {
    if k == 0 then 0 else Received(run, k - 1, ch) + if run.labels[k - 1] == Receive(ch) then 1 else 0
  }

  /** Step `j` subscribes over the channel to a live session. */
  predicate OpensAt(run: Run, j: nat, ch: ChannelId)
    requires j < |run.labels| < |run.states|
  {
    run.labels[j].Subscribe? && run.labels[j].channel == ch && run.labels[j].session in run.states[j].core.sessions
  }

  /** Step `j` drops the receiver, alone or together with the suspended call that owns it. */
  predicate DropsAt(run: Run, j: nat, ch: ChannelId)
    requires j < |run.labels| < |run.states|
  {
    run.labels[j] == DropReceiver(ch) || (run.labels[j].CancelSuspended? && run.states[j].lock == Some(ch))
  }

  /** After the first `k` steps somebody holds the receiving end. */
  ghost function Attached(run: Run, k: nat, ch: ChannelId): bool
    requires k <= |run.labels| < |run.states|
    decreases k
  {
    k > 0 && (OpensAt(run, k - 1, ch) || (Attached(run, k - 1, ch) && !DropsAt(run, k - 1, ch)))
  }

  lemma ReceiverAt(run: Run, j: nat, ch: ChannelId)
    requires IsRun(run) && j < |run.labels|
    ensures var before, after := run.states[j].core.channels, run.states[j + 1].core.channels;
            if ch in before then
              && ch in after && !OpensAt(run, j, ch)
              && after[ch].taken == before[ch].taken + (if run.labels[j] == Receive(ch) then 1 else 0)
              && (after[ch].alive <==> before[ch].alive && !DropsAt(run, j, ch))
            else
              && run.labels[j] != Receive(ch)
              && (if ch in after then after[ch].taken == 0 && (after[ch].alive <==> OpensAt(run, j, ch))
                  else !OpensAt(run, j, ch))
  {
    var st, l := run.states[j], run.labels[j];
    assert ReachedAt(run, j + 1);
    if ch in st.core.channels {
      ReceiverMoves(st, l, ch);
    } else if ch in Next(st, l).core.channels {
      OpensChannel(st, l, ch);
    }
  }

  /** A channel has lost to its receiver as many events as were taken, and is alive while somebody holds it. */
  lemma {:induction false} ReceiversAreHistory(run: Run, k: nat, ch: ChannelId)
    requires IsRun(run) && k < |run.states|
    ensures if ch in run.states[k].core.channels then
              var channel := run.states[k].core.channels[ch];
              channel.taken == Received(run, k, ch) && (channel.alive <==> Attached(run, k, ch))
            else
              Received(run, k, ch) == 0 && !Attached(run, k, ch)
    decreases k
  {
    if k == 0 {
      assert ReachedAt(run, 0);
    } else {
      ReceiversAreHistory(run, k - 1, ch);
      ReceiverAt(run, k - 1, ch);
    }
  }

  /** The step that opened a channel was a subscription, for the participant and session of the channel. */
  lemma {:induction false} ChannelsAreOpened(run: Run, k: nat, ch: ChannelId) returns (j: nat)
    requires IsRun(run) && k < |run.states| && ch in run.states[k].core.channels
    ensures j < k && (run.labels[j].Subscribe? || run.labels[j].AbandonSubscribe?) && run.labels[j].channel == ch
    ensures run.labels[j].session == run.states[k].core.channels[ch].session
    ensures run.labels[j].participant == run.states[k].core.channels[ch].participant
    ensures run.labels[j].session in run.states[j].core.sessions
    decreases k
  {
    assert ReachedAt(run, 0);
    if ch in run.states[k - 1].core.channels {
      j := ChannelsAreOpened(run, k - 1, ch);
      GrowsAt(run, k - 1, ch);
    } else {
      j := k - 1;
      assert ReachedAt(run, k);
      OpensChannel(run.states[j], run.labels[j], ch);
    }
  }

  lemma SendersOfLive(run: Run, k: nat)
    requires IsRun(run) && k < |run.states|
    ensures run.states[k].core.senders.Keys <= run.states[k].core.sessions.Keys <= run.states[k].used
  {
    ReachableOk(run, k);
  }

  /**
   A channel listens exactly while its session lives, its participant has not subscribed again,
   and somebody holds its receiving end.
   */
  lemma ListeningExactly(run: Run, k: nat, ch: ChannelId, s: SessionId, p: ParticipantId)
    requires IsRun(run) && k < |run.states| && ch in run.states[k].core.channels
    requires run.states[k].core.channels[ch].session == s && run.states[k].core.channels[ch].participant == p
    ensures Listening(run.states[k].core, ch)
       <==> s in run.states[k].core.sessions && LastSubscribed(run, k, s, p) == Some(ch) && Attached(run, k, ch)
  {
    SendersOfLive(run, k);
    ReceiversAreHistory(run, k, ch);
    if s in run.states[k].core.sessions { SenderIsLastSubscribed(run, k, s, p); }
  }
}
