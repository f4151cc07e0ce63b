/**
 Concrete runs: announcements can arrive twice, and a subscription can stop the server. They
 show that the bounds proved elsewhere are met, and start from any state with one free place.
 */
module Witnesses {
  import opened Types
  import opened RouterPool
  import opened CoreModel
  import opened SystemModel
  import opened Announcements

  const ALICE: ParticipantId := "alice"
  const BOB: ParticipantId := "bob"

  /** Alice registers session 0, Bob joins, and Alice opens transport 7 to send on. */
  const SETTING := [
    Label.Register(0, ALICE), Label.Join(0, BOB), Label.CreateTransport(0, ALICE, "send", Some(7))]

  /** Alice's next track. */
  function Produce(q: ProducerId): Label {
    Label.CreateProducer(0, ALICE, 7, Audio, Some(q))
  }

  function Announcing(q: ProducerId): Task {
    Task(0, NewProducer(q, Audio), Some(ALICE))
  }

  function Tracks(m: nat): (tracks: map<ProducerId, MediaKind>)
    ensures forall q: nat :: q in tracks <==> q < m
    ensures forall q :: q in tracks ==> tracks[q] == Audio
    decreases m
  {
    if m == 0 then map[] else Tracks(m - 1)[m - 1 := Audio]
  }

  /** Alice with `m` tracks. */
  function Producing(m: nat): Participant {
    Participant(Some(7), None, Tracks(m), map[])
  }

  function Listings(m: nat): (order: seq<Listing>)
    ensures |order| == m && forall q :: 0 <= q < m ==> order[q] == Listing(q, Audio, ALICE)
  {
    seq(m, q requires 0 <= q => Listing(q, Audio, ALICE))
  }

  ghost predicate HasPlace(start: System) {
    StartOk(start) && start.core.pool != [] && 0 < start.core.cap
  }

  /** Session 0 is the only one, on a router with a server, and nobody has subscribed yet. */
  ghost predicate Staged(st: System, participants: map<ParticipantId, Participant>, capacity: nat) {
    && st.core.sessions.Keys == {0} && st.core.sessions[0].router in st.core.servers
    && st.core.sessions[0].participants == participants && st.core.sessions[0].maxParticipants == 2
    && st.lock == None && st.capacity == capacity && st.core.senders == map[] && st.core.channels == map[]
  }

  /** Bob is there, and Alice has created producers 0 up to `m`, none of them announced yet. */
  ghost predicate Produced(st: System, m: nat, capacity: nat) {
    && Staged(st, map[ALICE := Producing(m), BOB := NewParticipant()], capacity)
    && (forall q: nat :: q >= m ==> ProducerResource(q) !in st.closers)
    && (forall q: nat :: q < m ==> Announcing(q) in st.pending)
  }

  lemma Strangers()
    ensures BOB != ALICE
  {
    assert |BOB| != |ALICE|;
  }

  lemma RegisterAlice(start: System)
    requires HasPlace(start)
    ensures Enabled(start, SETTING[0])
    ensures var st := Next(start, SETTING[0]);
            Staged(st, map[ALICE := NewParticipant()], start.capacity) && st.closers == map[]
  {
    var i := RegisterSpec(start.core, 0, ALICE);
    assert HasRoom(start.core.counters, start.core.cap, start.core.pool[0]) by {
      assert start.core.pool[0] in start.core.counters;
      assert Served(start.core.sessions, start.core.pool[0]) == {};
    }
    assert start.core.pool[i] in start.core.servers;
  }

  lemma JoinBob(st: System, capacity: nat)
    requires Staged(st, map[ALICE := NewParticipant()], capacity) && st.closers == map[]
    ensures Enabled(st, SETTING[1])
    ensures var after := Next(st, SETTING[1]);
            && Staged(after, map[ALICE := NewParticipant(), BOB := NewParticipant()], capacity)
            && after.closers == map[]
  {
    Strangers();
  }

  lemma OpenTransport(st: System, capacity: nat)
    requires Staged(st, map[ALICE := NewParticipant(), BOB := NewParticipant()], capacity) && st.closers == map[]
    ensures Enabled(st, SETTING[2]) && Produced(Next(st, SETTING[2]), 0, capacity)
  {
    Strangers();
    var before := st.core.sessions[0].participants;
    assert NewParticipant().(send := Some(7)) == Producing(0);
    assert before[ALICE := Producing(0)] == map[ALICE := Producing(0), BOB := NewParticipant()];
    assert Next(st, SETTING[2]).core == WithParticipant(st.core, 0, ALICE, Producing(0));
  }

  lemma ProduceNext(st: System, m: nat, capacity: nat)
    requires Produced(st, m, capacity)
    ensures Enabled(st, Produce(m)) && Produced(Next(st, Produce(m)), m + 1, capacity)
  {
    Strangers();
    var before := st.core.sessions[0].participants;
    assert Tracks(m)[m := Audio] == Tracks(m + 1);
    assert before[ALICE := Producing(m + 1)] == map[ALICE := Producing(m + 1), BOB := NewParticipant()];
    assert Next(st, Produce(m)).core == WithParticipant(st.core, 0, ALICE, Producing(m + 1));
  }

  /** One more enabled step at the end of a run. */
  lemma Extended(run: Run, l: Label) returns (longer: Run)
    requires IsRun(run) && Enabled(run.states[|run.labels|], l)
    ensures IsRun(longer) && longer.labels == run.labels + [l]
    ensures longer.states == run.states + [Next(run.states[|run.labels|], l)]
  {
    longer := Run(run.states + [Next(run.states[|run.labels|], l)], run.labels + [l]);
    forall i: nat | i < |longer.states| ensures ReachedAt(longer, i) {
      if i < |run.states| { assert ReachedAt(run, i); }
    }
  }

  lemma RunRegistered(start: System) returns (run: Run)
    requires HasPlace(start)
    ensures IsRun(run) && run.states[0] == start && |run.labels| == 1
    ensures Staged(run.states[1], map[ALICE := NewParticipant()], start.capacity) && run.states[1].closers == map[]
  {
    run := Run([start], []);
    assert ReachedAt(run, 0);
    RegisterAlice(start);
    run := Extended(run, SETTING[0]);
  }

  lemma RunSetting(start: System) returns (run: Run)
    requires HasPlace(start)
    ensures IsRun(run) && run.states[0] == start && |run.labels| == 3
    ensures Produced(run.states[3], 0, start.capacity)
  {
    run := RunRegistered(start);
    JoinBob(run.states[1], start.capacity);
    run := Extended(run, SETTING[1]);
    OpenTransport(run.states[2], start.capacity);
    run := Extended(run, SETTING[2]);
  }

  lemma OneMore(run: Run, m: nat, capacity: nat) returns (longer: Run)
    requires IsRun(run) && Produced(run.states[|run.labels|], m, capacity)
    ensures IsRun(longer) && longer.states[0] == run.states[0] && |longer.labels| == |run.labels| + 1
    ensures Produced(longer.states[|longer.labels|], m + 1, capacity)
  {
    ProduceNext(run.states[|run.labels|], m, capacity);
    longer := Extended(run, Produce(m));
  }

  /** A run in which Alice creates `m` producers. */
  lemma {:induction false} RunProduced(start: System, m: nat) returns (run: Run)
    requires HasPlace(start)
    ensures IsRun(run) && run.states[0] == start && |run.labels| == 3 + m
    ensures Produced(run.states[3 + m], m, start.capacity)
    decreases m
  {
    if m == 0 {
      run := RunSetting(start);
    } else {
      var shorter := RunProduced(start, m - 1);
      run := OneMore(shorter, m - 1, start.capacity);
    }
  }

  lemma ListingsAreAll(session: Session, m: nat)
    requires session.participants == map[ALICE := Producing(m), BOB := NewParticipant()]
    ensures IsListing(session, Listings(m))
  {
    Strangers();
    forall x: Listing ensures x in Listings(m) <==> Listed(session, x) {
      if Listed(session, x) { assert Listings(m)[x.producer] == x; }
    }
  }

  lemma {:induction false} ReplayOfOthers(p: ParticipantId, order: seq<Listing>)
    requires forall x :: x in order ==> x.owner != p
    ensures |Replay(p, order)| == |order|
    decreases order
  {
    if order != [] { ReplayOfOthers(p, order[1..]); }
  }

  /**
   Exactly-once delivery is not promised: Bob subscribes after the producer was stored but
   before its broadcast ran, and gets the announcement by replay and by broadcast.
   */
  lemma AnnouncedTwice(start: System) returns (run: Run)
    requires HasPlace(start) && 3 <= start.capacity
    ensures IsRun(run) && run.states[0] == start && |run.states| == 7 && 1 in run.states[6].core.channels
    ensures Copies(run.states[6].core.channels[1], 0, Audio) == 2
  {
    run := RunProduced(start, 1);
    SubscribeBob(run.states[4], start.capacity);
    run := Extended(run, Label.Subscribe(0, BOB, 1, Listings(1)));
    TwiceInLog(run.states[5], start.capacity);
    run := Extended(run, RunTask(Announcing(0)));
  }

  /** Bob has the confirmation and the replay of Alice's one producer, which is still to be announced. */
  ghost predicate Subscribed(st: System, capacity: nat) {
    && st.core.channels.Keys == {1} && st.core.senders == map[0 := map[BOB := 1]] && st.lock == None
    && st.core.channels[1]
       == Opened(0, BOB, capacity, [SubscriptionConfirmed(0), NewProducer(0, Audio)], 2, true)
    && Announcing(0) in st.pending
  }

  lemma SubscribeBob(st: System, capacity: nat)
    requires Produced(st, 1, capacity) && 3 <= capacity
    ensures var subscribe := Label.Subscribe(0, BOB, 1, Listings(1));
            Enabled(st, subscribe) && Subscribed(Next(st, subscribe), capacity)
  {
    Strangers();
    ListingsAreAll(st.core.sessions[0], 1);
    assert Listings(1)[1..] == [];
    assert Head(0, BOB, Listings(1)) == [SubscriptionConfirmed(0), NewProducer(0, Audio)];
  }

  lemma TwiceInLog(st: System, capacity: nat)
    requires Subscribed(st, capacity) && 3 <= capacity
    ensures Enabled(st, RunTask(Announcing(0)))
    ensures var after := Next(st, RunTask(Announcing(0))).core.channels;
            1 in after && Copies(after[1], 0, Audio) == 2
  {
    Strangers();
    var after := Next(st, RunTask(Announcing(0))).core.channels;
    assert after[1] == Offer(st.core.channels[1], NewProducer(0, Audio));
    assert after[1].log == [SubscriptionConfirmed(0), NewProducer(0, Audio), NewProducer(0, Audio)];
  }

  /** Whatever the capacity, as many producers of somebody else suspend a subscription. */
  lemma SubscriptionSuspends(start: System) returns (run: Run)
    requires HasPlace(start)
    ensures IsRun(run) && run.states[0] == start
    ensures |run.labels| == 4 + start.capacity && run.states[4 + start.capacity].lock == Some(1)
  {
    var m := start.capacity;
    run := RunProduced(start, m);
    SuspendBob(run.states[3 + m], m);
    run := Extended(run, Label.Subscribe(0, BOB, 1, Listings(m)));
  }

  lemma SuspendBob(st: System, m: nat)
    requires Produced(st, m, m)
    ensures var subscribe := Label.Subscribe(0, BOB, 1, Listings(m));
            Enabled(st, subscribe) && Next(st, subscribe).lock == Some(1)
  {
    Strangers();
    ListingsAreAll(st.core.sessions[0], m);
    ReplayOfOthers(BOB, Listings(m));
  }
}
