/** Who sits in a session and what they hold there, read off the requests of a run. */
module Participants {
  import opened Types
  import opened CoreModel
  import opened SystemModel
  import opened SystemFrames
  import opened SystemInvariant
  import opened SystemSteps
  import opened Allocation

  predicate Seated(c: Core, s: SessionId, p: ParticipantId) {
    s in c.sessions && p in c.sessions[s].participants
  }

  function SeatsIn(c: Core, s: SessionId): set<ParticipantId> {
    if s in c.sessions then c.sessions[s].participants.Keys else {}
  }

  const BLANK := Participant(None, None, map[], map[])

  /** What the participant holds, nothing for one that is not in the session. */
  function Record(c: Core, s: SessionId, p: ParticipantId): Participant {
    if Seated(c, s, p) then c.sessions[s].participants[p] else BLANK
  }

  /** The transport of the participant for the direction. */
  function Slot(c: Core, s: SessionId, p: ParticipantId, direction: string): Option<TransportId> {
    if direction == "send" then Record(c, s, p).send else Record(c, s, p).recv
  }

  // ---------------------------------------------------------------- which requests are granted

  /** The step is a request of `p` in `s`, seated there, that opens a transport in the direction. */
  predicate Opens(st: System, l: Label, s: SessionId, p: ParticipantId, direction: string) {
    && l.CreateTransport? && l.session == s && l.participant == p && l.direction == direction
    && l.transport.Some? && Seated(st.core, s, p)
  }

  /** The step creates a producer of `p` in `s`, on the transport it sends on. */
  predicate Produces(st: System, l: Label, s: SessionId, p: ParticipantId) {
    && l.CreateProducer? && l.session == s && l.participant == p
    && l.producer.Some? && Seated(st.core, s, p) && Slot(st.core, s, p, "send") == Some(l.on)
  }

  /** The step creates a consumer of `p` in `s`, on the transport it receives on. */
  predicate Consumes(st: System, l: Label, s: SessionId, p: ParticipantId) {
    && l.CreateConsumer? && l.session == s && l.participant == p
    && l.canConsume && l.consumer.Some? && Seated(st.core, s, p) && Slot(st.core, s, p, "recv") == Some(l.on)
  }

  /** The step seats `p` in `s`: it registers the session, or takes a second seat. */
  predicate Seats(st: System, l: Label, s: SessionId, p: ParticipantId) {
    || (l == Label.Register(s, p) && PlaceLeft(st.core))
    || (l == Label.Join(s, p) && SeatFree(st.core, s, p))
  }

  /** The session is live, has a seat left, and `p` is not in it yet. */
  predicate SeatFree(c: Core, s: SessionId, p: ParticipantId) {
    s in c.sessions && p !in SeatsIn(c, s) && |SeatsIn(c, s)| < 2
  }

  // ---------------------------------------------------------------- one request

  lemma WithParticipantRecord(
    c: Core, x: SessionId, y: ParticipantId, participant: Participant, s: SessionId, p: ParticipantId)
    requires x in c.sessions
    ensures var d := WithParticipant(c, x, y, participant);
            && Record(d, s, p) == (if s == x && p == y then participant else Record(c, s, p))
            && SeatsIn(d, s) == SeatsIn(c, s) + if s == x then {y} else {}
  {
  }

  lemma JoinRecord(c: Core, x: SessionId, y: ParticipantId, s: SessionId, p: ParticipantId)
    requires x in c.sessions ==> c.sessions[x].maxParticipants == 2
    ensures var d := CoreModel.Join(c, x, y).core;
            && Record(d, s, p) == Record(c, s, p)
            && SeatsIn(d, s) == SeatsIn(c, s) + if s == x && SeatFree(c, x, y) then {y} else {}
  {
    if x in c.sessions {
      assert |c.sessions[x].participants| == |c.sessions[x].participants.Keys|;
      if CoreModel.Join(c, x, y).result.Ok? { WithParticipantRecord(c, x, y, NewParticipant(), s, p); }
    }
  }

  lemma TransportRecord(
    c: Core, x: SessionId, y: ParticipantId, way: string, made: Option<TransportId>, s: SessionId, p: ParticipantId)
    requires x in c.sessions ==> c.sessions[x].router in c.servers
    ensures var r := CoreModel.CreateTransport(c, x, y, way, made);
            var before, after := Record(c, s, p), Record(r.core, s, p);
            && (r.result.Ok? <==> Seated(c, x, y) && made.Some? && (way == "send" || way == "recv"))
            && SeatsIn(r.core, s) == SeatsIn(c, s)
            && (if !(r.result.Ok? && s == x && p == y) then after == before
                else if way == "send" then after == before.(send := made) else after == before.(recv := made))
  {
    var holder := TransportSpec(c, x, y, way, made);
    if CoreModel.CreateTransport(c, x, y, way, made).result.Ok? { WithParticipantRecord(c, x, y, holder, s, p); }
  }

  lemma ProducerRecord(
    c: Core, x: SessionId, y: ParticipantId, t: TransportId, kind: MediaKind, made: Option<ProducerId>,
    s: SessionId, p: ParticipantId)
    ensures var r := CoreModel.CreateProducer(c, x, y, t, kind, made);
            var before := Record(c, s, p);
            && (r.result.Ok? <==> Seated(c, x, y) && Slot(c, x, y, "send") == Some(t) && made.Some?)
            && SeatsIn(r.core, s) == SeatsIn(c, s)
            && Record(r.core, s, p) == if r.result.Ok? && s == x && p == y
                                       then before.(producers := before.producers[made.value := kind]) else before
  {
    var holder := ProducerSpec(c, x, y, t, kind, made);
    if CoreModel.CreateProducer(c, x, y, t, kind, made).result.Ok? { WithParticipantRecord(c, x, y, holder, s, p); }
  }

  lemma ConsumerRecord(
    c: Core, x: SessionId, y: ParticipantId, t: TransportId, q: ProducerId, canConsume: bool,
    made: Option<ConsumerId>, s: SessionId, p: ParticipantId)
    ensures var r := CoreModel.CreateConsumer(c, x, y, t, q, canConsume, made);
            var before := Record(c, s, p);
            && (r.result.Ok? <==> Seated(c, x, y) && Slot(c, x, y, "recv") == Some(t) && canConsume && made.Some?)
            && SeatsIn(r.core, s) == SeatsIn(c, s)
            && Record(r.core, s, p) == if r.result.Ok? && s == x && p == y
                                       then before.(consumers := before.consumers[made.value := q]) else before
  {
    var holder := ConsumerSpec(c, x, y, t, q, canConsume, made);
    if CoreModel.CreateConsumer(c, x, y, t, q, canConsume, made).result.Ok? {
      WithParticipantRecord(c, x, y, holder, s, p);
    }
  }

  lemma WithSessionRecord(c: Core, x: SessionId, y: ParticipantId, i: nat, s: SessionId, p: ParticipantId)
    requires x !in c.sessions && i < |c.pool| && c.pool[i] in c.counters
    ensures var d := WithSession(c, x, y, i);
            Record(d, s, p) == Record(c, s, p) && SeatsIn(d, s) == SeatsIn(c, s) + if s == x then {y} else {}
  {
  }

  lemma RegisterRecord(c: Core, x: SessionId, y: ParticipantId, s: SessionId, p: ParticipantId)
    requires CoreOk(c) && x !in c.sessions
    ensures var d := CoreModel.Register(c, x, y).core;
            && Record(d, s, p) == Record(c, s, p)
            && SeatsIn(d, s) == SeatsIn(c, s) + if s == x && PlaceLeft(c) then {y} else {}
  {
    RegisterGranted(c, x, y);
    RegisteredRecord(c, x, y, s, p);
  }

  lemma RegisteredRecord(c: Core, x: SessionId, y: ParticipantId, s: SessionId, p: ParticipantId)
    requires CursorOk(c) && x !in c.sessions
    ensures var r := CoreModel.Register(c, x, y);
            && Record(r.core, s, p) == Record(c, s, p)
            && SeatsIn(r.core, s) == SeatsIn(c, s) + if s == x && r.result.Ok? then {y} else {}
  {
    var i := RegisterSpec(c, x, y);
    if CoreModel.Register(c, x, y).result.Ok? { WithSessionRecord(c, x, y, i, s, p); }
  }

  // ---------------------------------------------------------------- one step

  /** What a step leaves the participant holding. */
  function Held(st: System, l: Label, s: SessionId, p: ParticipantId): Participant {
    var before := Record(st.core, s, p);
    if Opens(st, l, s, p, "send") then before.(send := l.transport)
    else if Opens(st, l, s, p, "recv") then before.(recv := l.transport)
    else if Produces(st, l, s, p) then before.(producers := before.producers[l.producer.value := l.kind])
    else if Consumes(st, l, s, p) then before.(consumers := before.consumers[l.consumer.value := l.source])
    else before
  }

  /** The one whom the step seats in `s`, if any. */
  function NewSeats(st: System, l: Label, s: SessionId): set<ParticipantId> {
    if (l.Register? || l.Join?) && Seats(st, l, s, l.participant) then {l.participant} else {}
  }

  lemma JoinStepRecord(st: System, l: Label, s: SessionId, p: ParticipantId)
    requires l.Join? && Enabled(st, l)
    requires l.session in st.core.sessions ==> st.core.sessions[l.session].maxParticipants == 2
    ensures Record(Next(st, l).core, s, p) == Held(st, l, s, p)
    ensures SeatsIn(Next(st, l).core, s) == SeatsIn(st.core, s) + NewSeats(st, l, s)
  {
    JoinRecord(st.core, l.session, l.participant, s, p);
  }

  lemma TransportStepRecord(st: System, l: Label, s: SessionId, p: ParticipantId)
    requires l.CreateTransport? && Enabled(st, l)
    requires l.session in st.core.sessions ==> st.core.sessions[l.session].router in st.core.servers
    ensures Record(Next(st, l).core, s, p) == Held(st, l, s, p)
    ensures SeatsIn(Next(st, l).core, s) == SeatsIn(st.core, s)
  {
    TransportRecord(st.core, l.session, l.participant, l.direction, l.transport, s, p);
    CreatedFrame(st, CoreModel.CreateTransport(st.core, l.session, l.participant, l.direction, l.transport));
  }

  lemma ProducerStepRecord(st: System, l: Label, s: SessionId, p: ParticipantId)
    requires l.CreateProducer? && Enabled(st, l)
    ensures Record(Next(st, l).core, s, p) == Held(st, l, s, p)
    ensures SeatsIn(Next(st, l).core, s) == SeatsIn(st.core, s)
  {
    ProducerRecord(st.core, l.session, l.participant, l.on, l.kind, l.producer, s, p);
    CreatedFrame(st, CoreModel.CreateProducer(st.core, l.session, l.participant, l.on, l.kind, l.producer));
  }

  lemma ConsumerStepRecord(st: System, l: Label, s: SessionId, p: ParticipantId)
    requires l.CreateConsumer? && Enabled(st, l)
    ensures Record(Next(st, l).core, s, p) == Held(st, l, s, p)
    ensures SeatsIn(Next(st, l).core, s) == SeatsIn(st.core, s)
  {
    var c := st.core;
    ConsumerRecord(c, l.session, l.participant, l.on, l.source, l.canConsume, l.consumer, s, p);
    CreatedFrame(st, CoreModel.CreateConsumer(c, l.session, l.participant, l.on, l.source, l.canConsume, l.consumer));
  }

  lemma RequestRecord(st: System, l: Label, s: SessionId, p: ParticipantId)
    requires CoreOk(st.core) && Enabled(st, l) && IsRequest(l)
    ensures Record(Next(st, l).core, s, p) == Held(st, l, s, p)
    ensures SeatsIn(Next(st, l).core, s) == SeatsIn(st.core, s) + NewSeats(st, l, s)
  {
    if l.Join? {
      JoinStepRecord(st, l, s, p);
    } else if l.CreateTransport? {
      TransportStepRecord(st, l, s, p);
    } else if l.CreateProducer? {
      ProducerStepRecord(st, l, s, p);
    } else {
      ConsumerStepRecord(st, l, s, p);
    }
  }

  lemma RegisterStepRecord(st: System, l: Label, s: SessionId, p: ParticipantId)
    requires CoreOk(st.core) && st.core.sessions.Keys <= st.used && l.Register? && Enabled(st, l)
    ensures Record(Next(st, l).core, s, p) == Record(st.core, s, p)
    ensures SeatsIn(Next(st, l).core, s) == SeatsIn(st.core, s) + NewSeats(st, l, s)
  {
    RegisterRecord(st.core, l.session, l.participant, s, p);
    assert Next(st, l).core == CoreModel.Register(st.core, l.session, l.participant).core;
  }

  /** Other steps leave whoever is in an unclosed session alone. */
  lemma OtherRecord(st: System, l: Label, s: SessionId, p: ParticipantId)
    requires Enabled(st, l) && !IsRequest(l) && !l.Register? && Unclosed(Next(st, l), s)
    requires st.core.sessions.Keys <= st.used
    ensures Record(Next(st, l).core, s, p) == Record(st.core, s, p)
    ensures SeatsIn(Next(st, l).core, s) == SeatsIn(st.core, s)
  {
    if IsChannelStep(l) {
      ChannelStep(st, l);
    } else if l.Shutdown? {
      if s in Next(st, l).core.sessions { CloseAllOnlyRemoves(st.core, l.keys, s); }
    }
  }

  // ---------------------------------------------------------------- a whole run

  lemma StepOf(run: Run, j: nat, s: SessionId, p: ParticipantId)
    requires IsRun(run) && j < |run.labels| && Unclosed(run.states[j + 1], s)
    ensures Unclosed(run.states[j], s)
    ensures Record(run.states[j + 1].core, s, p) == Held(run.states[j], run.labels[j], s, p)
    ensures SeatsIn(run.states[j + 1].core, s)
         == SeatsIn(run.states[j].core, s) + NewSeats(run.states[j], run.labels[j], s)
  {
    ReachableOk(run, j);
    assert ReachedAt(run, j + 1);
    StepRecord(run.states[j], run.labels[j], s, p);
  }

  lemma StepRecord(st: System, l: Label, s: SessionId, p: ParticipantId)
    requires CoreOk(st.core) && st.core.sessions.Keys <= st.used && Enabled(st, l) && Unclosed(Next(st, l), s)
    ensures Unclosed(st, s)
    ensures Record(Next(st, l).core, s, p) == Held(st, l, s, p)
    ensures SeatsIn(Next(st, l).core, s) == SeatsIn(st.core, s) + NewSeats(st, l, s)
  {
    if s in st.used && s !in st.core.sessions { GoneStep(st, l, s); }
    if IsRequest(l) {
      RequestRecord(st, l, s, p);
    } else if l.Register? {
      RegisterStepRecord(st, l, s, p);
    } else {
      OtherRecord(st, l, s, p);
    }
  }

  lemma NobodyYet(run: Run, s: SessionId, p: ParticipantId)
    requires IsRun(run)
    ensures SeatsIn(run.states[0].core, s) == {} && Record(run.states[0].core, s, p) == BLANK
  {
    assert ReachedAt(run, 0);
  }

  /** Everybody whom the first `k` steps seated in `s`. */
  ghost function SeatsTaken(run: Run, k: nat, s: SessionId): set<ParticipantId>
    requires k <= |run.labels| < |run.states|
    decreases k
  {
    if k == 0 then {} else SeatsTaken(run, k - 1, s) + NewSeats(run.states[k - 1], run.labels[k - 1], s)
  }

  /** The transport that `p` opened last in `s` for the direction, in the first `k` steps. */
  ghost function LastOpened(run: Run, k: nat, s: SessionId, p: ParticipantId, direction: string): Option<TransportId>
    requires k <= |run.labels| < |run.states|
    decreases k
  {
    if k == 0 then None
    else if Opens(run.states[k - 1], run.labels[k - 1], s, p, direction) then run.labels[k - 1].transport
    else LastOpened(run, k - 1, s, p, direction)
  }

  /** Step `j` asks for a producer of `p`, seated in `s`, on the transport it opened last for sending. */
  ghost predicate ProducesAt(run: Run, j: nat, s: SessionId, p: ParticipantId)
    requires j < |run.labels| < |run.states|
  {
    var l := run.labels[j];
    && l.CreateProducer? && l.session == s && l.participant == p && l.producer.Some?
    && Seated(run.states[j].core, s, p) && LastOpened(run, j, s, p, "send") == Some(l.on)
  }

  /** Step `j` asks for a consumer on the transport opened last for receiving, and the router agrees. */
  ghost predicate ConsumesAt(run: Run, j: nat, s: SessionId, p: ParticipantId)
    requires j < |run.labels| < |run.states|
  {
    var l := run.labels[j];
    && l.CreateConsumer? && l.session == s && l.participant == p && l.consumer.Some? && l.canConsume
    && Seated(run.states[j].core, s, p) && LastOpened(run, j, s, p, "recv") == Some(l.on)
  }

  /** The producers that `p` created in `s` in the first `k` steps, with their kinds. */
  ghost function Produced(run: Run, k: nat, s: SessionId, p: ParticipantId): map<ProducerId, MediaKind>
    requires k <= |run.labels| < |run.states|
    decreases k
  {
    if k == 0 then map[]
    else if ProducesAt(run, k - 1, s, p) then
      Produced(run, k - 1, s, p)[run.labels[k - 1].producer.value := run.labels[k - 1].kind]
    else Produced(run, k - 1, s, p)
  }

  /** The consumers that `p` created in `s` in the first `k` steps, with what they consume. */
  ghost function Consumed(run: Run, k: nat, s: SessionId, p: ParticipantId): map<ConsumerId, ProducerId>
    requires k <= |run.labels| < |run.states|
    decreases k
  {
    if k == 0 then map[]
    else if ConsumesAt(run, k - 1, s, p) then
      Consumed(run, k - 1, s, p)[run.labels[k - 1].consumer.value := run.labels[k - 1].source]
    else Consumed(run, k - 1, s, p)
  }

  /** Until a session is closed, exactly those sit in it who registered it or took its second seat. */
  lemma {:induction false} SeatsAreGranted(run: Run, k: nat, s: SessionId)
    requires IsRun(run) && k < |run.states| && Unclosed(run.states[k], s)
    ensures SeatsIn(run.states[k].core, s) == SeatsTaken(run, k, s)
    decreases k
  {
    if k == 0 {
      NobodyYet(run, s, "");
    } else {
      StepOf(run, k - 1, s, "");
      SeatsAreGranted(run, k - 1, s);
    }
  }

  /** Until its session is closed, a participant's slot holds the transport it opened last. */
  lemma {:induction false} SlotIsLastOpened(run: Run, k: nat, s: SessionId, p: ParticipantId, direction: string)
    requires IsRun(run) && k < |run.states| && (direction == "send" || direction == "recv")
    requires Unclosed(run.states[k], s)
    ensures Slot(run.states[k].core, s, p, direction) == LastOpened(run, k, s, p, direction)
    decreases k
  {
    if k == 0 {
      NobodyYet(run, s, p);
    } else {
      StepOf(run, k - 1, s, p);
      SlotIsLastOpened(run, k - 1, s, p, direction);
    }
  }

  /** In terms of the run, the same requests are granted. */
  lemma SameGrants(run: Run, j: nat, s: SessionId, p: ParticipantId)
    requires IsRun(run) && j < |run.labels|
    ensures Produces(run.states[j], run.labels[j], s, p) <==> ProducesAt(run, j, s, p)
    ensures Consumes(run.states[j], run.labels[j], s, p) <==> ConsumesAt(run, j, s, p)
  {
    if Seated(run.states[j].core, s, p) {
      SlotIsLastOpened(run, j, s, p, "send");
      SlotIsLastOpened(run, j, s, p, "recv");
    }
  }

  /** Until its session is closed, a participant holds exactly the producers it created. */
  lemma {:induction false} ProducersAreCreated(run: Run, k: nat, s: SessionId, p: ParticipantId)
    requires IsRun(run) && k < |run.states| && Unclosed(run.states[k], s)
    ensures Record(run.states[k].core, s, p).producers == Produced(run, k, s, p)
    decreases k
  {
    if k == 0 {
      NobodyYet(run, s, p);
    } else {
      StepOf(run, k - 1, s, p);
      ProducersAreCreated(run, k - 1, s, p);
      SameGrants(run, k - 1, s, p);
    }
  }

  /** And exactly the consumers it created, each for what it was asked to consume. */
  lemma {:induction false} ConsumersAreCreated(run: Run, k: nat, s: SessionId, p: ParticipantId)
    requires IsRun(run) && k < |run.states| && Unclosed(run.states[k], s)
    ensures Record(run.states[k].core, s, p).consumers == Consumed(run, k, s, p)
    decreases k
  {
    if k == 0 {
      NobodyYet(run, s, p);
    } else {
      StepOf(run, k - 1, s, p);
      ConsumersAreCreated(run, k - 1, s, p);
      SameGrants(run, k - 1, s, p);
    }
  }

  // ---------------------------------------------------------------- what is answered

  /** The two cores differ in what `p` holds in `s`, which is now `record`, and in nothing else. */
  predicate OnlyRecord(c: Core, d: Core, s: SessionId, p: ParticipantId, record: Participant) {
    && SameAllocation(c, d) && s in c.sessions
    && (forall x :: x in c.sessions && x != s ==> d.sessions[x] == c.sessions[x])
    && d.sessions[s].participants == c.sessions[s].participants[p := record]
  }

  lemma WithParticipantOnly(c: Core, s: SessionId, p: ParticipantId, record: Participant)
    requires s in c.sessions
    ensures OnlyRecord(c, WithParticipant(c, s, p, record), s, p, record)
  {
    WithParticipantFrame(c, s, p, record);
  }

  lemma ReachableSessions(run: Run, k: nat, s: SessionId)
    requires IsRun(run) && k < |run.states| && s in run.states[k].core.sessions
    ensures var c := run.states[k].core;
            && c.sessions[s].router in c.servers && c.sessions[s].maxParticipants == 2
            && 1 <= |c.sessions[s].participants| <= 2
  {
    ReachableOk(run, k);
  }

  /**
   In a reachable state the second seat of a live session is the only one to be had, by anyone
   but its holder; a full session says so before it looks at who is asking. Who joins has
   nothing yet.
   */
  lemma JoinTakesTheSecondSeat(run: Run, k: nat, s: SessionId, p: ParticipantId)
    requires IsRun(run) && k < |run.states|
    ensures var c := run.states[k].core;
            var r := CoreModel.Join(c, s, p);
            if s !in c.sessions then r == Reply(c, Err(SessionNotFound))
            else if |c.sessions[s].participants| == 2 then r == Reply(c, Err(SessionFull))
            else if c.sessions[s].participants.Keys == {p} then r == Reply(c, Err(ParticipantAlreadyExists))
            else
              && r.result == Ok(()) && OnlyRecord(c, r.core, s, p, BLANK)
              && r.core.sessions[s].participants.Keys == c.sessions[s].participants.Keys + {p}
              && |r.core.sessions[s].participants| == 2
  {
    var c := run.states[k].core;
    if s in c.sessions {
      ReachableSessions(run, k, s);
      TakeSeat(c.sessions[s].participants, p);
      WithParticipantOnly(c, s, p, BLANK);
    }
  }

  /** The seats of one session: with one taken, everybody but its holder gets the other. */
  lemma TakeSeat(seated: map<ParticipantId, Participant>, p: ParticipantId)
    requires 1 <= |seated| <= 2
    ensures |seated| == 1 ==> (p in seated <==> seated.Keys == {p})
    ensures var after := seated[p := BLANK];
            after.Keys == seated.Keys + {p} && (p !in seated ==> |after| == |seated| + 1)
  {
    if |seated| == 1 && p in seated {
      assert |seated.Keys| == |seated|;
      OnlyOne(seated.Keys, p);
    }
  }

  lemma OnlyOne(keys: set<ParticipantId>, p: ParticipantId)
    requires |keys| == 1 && p in keys
    ensures keys == {p}
  {
    assert |keys - {p}| == 0;
    assert keys == {p} + (keys - {p});
  }

  /** In a reachable state, which request for a transport is granted, and which error the others get. */
  lemma TransportAnswers(
    run: Run, k: nat, s: SessionId, p: ParticipantId, direction: string, made: Option<TransportId>)
    requires IsRun(run) && k < |run.states|
    ensures var c := run.states[k].core;
            var r := CoreModel.CreateTransport(c, s, p, direction, made);
            if s !in c.sessions then r == Reply(c, Err(SessionNotFound))
            else if p !in c.sessions[s].participants then r == Reply(c, Err(ParticipantNotFound))
            else if made.None? then r == Reply(c, Err(TransportCreationFailed))
            else if direction != "send" && direction != "recv" then r == Reply(c, Err(InvalidTransportDirection))
            else
              var before := c.sessions[s].participants[p];
              && r.result == Ok(TransportSetup(made.value, s, p))
              && OnlyRecord(c, r.core, s, p,
                            if direction == "send" then before.(send := made) else before.(recv := made))
  {
    var c := run.states[k].core;
    if s in c.sessions { ReachableSessions(run, k, s); }
    var holder := TransportSpec(c, s, p, direction, made);
    if s in c.sessions { WithParticipantOnly(c, s, p, holder); }
  }

  /** Which request for a producer is granted, and which error the others get. */
  lemma ProducerAnswers(
    run: Run, k: nat, s: SessionId, p: ParticipantId, t: TransportId, kind: MediaKind, made: Option<ProducerId>)
    requires IsRun(run) && k < |run.states|
    ensures var c := run.states[k].core;
            var r := CoreModel.CreateProducer(c, s, p, t, kind, made);
            if s !in c.sessions then r == Reply(c, Err(SessionNotFound))
            else if p !in c.sessions[s].participants then r == Reply(c, Err(ParticipantNotFound))
            else if LastOpened(run, k, s, p, "send") != Some(t) then r == Reply(c, Err(InvalidTransport))
            else if made.None? then r == Reply(c, Err(ProducerCreationFailed))
            else
              var before := c.sessions[s].participants[p];
              && r.result == Ok(ProducerSetup(made.value, s, p, kind))
              && OnlyRecord(c, r.core, s, p, before.(producers := before.producers[made.value := kind]))
  {
    var c := run.states[k].core;
    if s in c.sessions { SlotIsLastOpened(run, k, s, p, "send"); }
    var holder := ProducerSpec(c, s, p, t, kind, made);
    if s in c.sessions { WithParticipantOnly(c, s, p, holder); }
  }

  /** Which request for a consumer is granted, and which error the others get. */
  lemma ConsumerAnswers(
    run: Run, k: nat, s: SessionId, p: ParticipantId, t: TransportId, q: ProducerId, canConsume: bool,
    made: Option<ConsumerId>)
    requires IsRun(run) && k < |run.states|
    ensures var c := run.states[k].core;
            var r := CoreModel.CreateConsumer(c, s, p, t, q, canConsume, made);
            if s !in c.sessions then r == Reply(c, Err(SessionNotFound))
            else if p !in c.sessions[s].participants then r == Reply(c, Err(ParticipantNotFound))
            else if LastOpened(run, k, s, p, "recv") != Some(t) then r == Reply(c, Err(InvalidTransport))
            else if !canConsume then r == Reply(c, Err(RtpCapabilitiesMismatch))
            else if made.None? then r == Reply(c, Err(ConsumerCreationFailed))
            else
              var before := c.sessions[s].participants[p];
              && r.result == Ok(ConsumerSetup(made.value, s, p))
              && OnlyRecord(c, r.core, s, p, before.(consumers := before.consumers[made.value := q]))
  {
    var c := run.states[k].core;
    if s in c.sessions { SlotIsLastOpened(run, k, s, p, "recv"); }
    var holder := ConsumerSpec(c, s, p, t, q, canConsume, made);
    if s in c.sessions { WithParticipantOnly(c, s, p, holder); }
  }

  /**
   So a participant can produce on exactly one transport, the one it opened last for sending,
   and consume on exactly one, the one it opened last for receiving, whatever else has happened;
   the router has to agree to the consuming.
   */
  lemma DirectionsAreSeparate(
    run: Run, k: nat, s: SessionId, p: ParticipantId, t: TransportId, kind: MediaKind, q: ProducerId,
    source: ProducerId, canConsume: bool, x: ConsumerId)
    requires IsRun(run) && k < |run.states|
    ensures var c := run.states[k].core;
            var producing := CoreModel.CreateProducer(c, s, p, t, kind, Some(q));
            var consuming := CoreModel.CreateConsumer(c, s, p, t, source, canConsume, Some(x));
            && (producing.result.Ok? <==> Seated(c, s, p) && LastOpened(run, k, s, p, "send") == Some(t))
            && (producing.result.Ok? ==> Holds(producing.core.sessions, q, Origin(s, p, kind)))
            && (consuming.result.Ok? <==>
                  Seated(c, s, p) && LastOpened(run, k, s, p, "recv") == Some(t) && canConsume)
  {
    ProducerAnswers(run, k, s, p, t, kind, Some(q));
    ConsumerAnswers(run, k, s, p, t, source, canConsume, Some(x));
  }
}
