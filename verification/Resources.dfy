/** The media resources of a run: which request created each, for which session, and what was spawned for it. */
module Resources {
  import opened Types
  import opened CoreModel
  import opened SystemModel
  import opened SystemFrames
  import opened SystemSteps
  import opened Delivery
  import opened Participants

  // ---------------------------------------------------------------- close flags

  predicate IsClosed(closers: map<Resource, Closer>, r: Resource) {
    r in closers && closers[r].closed
  }

  /** Setting up a new resource raises no flag. */
  lemma CreatedCloses(st: System, reply: Reply<PendingEventSetup>, r: Resource)
    requires reply.result.Ok? ==> ResourceOf(reply.result.value) !in st.closers
    ensures IsClosed(Created(st, reply).closers, r) <==> IsClosed(st.closers, r)
  {
  }

  lemma RequestCloses(st: System, l: Label, r: Resource)
    requires Enabled(st, l) && IsRequest(l)
    ensures IsClosed(Next(st, l).closers, r) <==> IsClosed(st.closers, r)
  {
    var c := st.core;
    if l.CreateTransport? {
      var holder := TransportSpec(c, l.session, l.participant, l.direction, l.transport);
      CreatedCloses(st, CoreModel.CreateTransport(c, l.session, l.participant, l.direction, l.transport), r);
    } else if l.CreateProducer? {
      var holder := ProducerSpec(c, l.session, l.participant, l.on, l.kind, l.producer);
      CreatedCloses(st, CoreModel.CreateProducer(c, l.session, l.participant, l.on, l.kind, l.producer), r);
    } else if l.CreateConsumer? {
      var reply := CoreModel.CreateConsumer(c, l.session, l.participant, l.on, l.source, l.canConsume, l.consumer);
      var holder := ConsumerSpec(c, l.session, l.participant, l.on, l.source, l.canConsume, l.consumer);
      CreatedCloses(st, reply, r);
    }
  }

  /** A close flag goes up when a callback of the resource fires, and at no other step. */
  lemma StepCloses(st: System, l: Label, r: Resource)
    requires Enabled(st, l)
    ensures IsClosed(Next(st, l).closers, r) <==> IsClosed(st.closers, r) || l == FireClose(r)
  {
    if IsRequest(l) {
      RequestCloses(st, l, r);
    } else if IsChannelStep(l) {
      ChannelStep(st, l);
    } else {
      OtherStep(st, l);
    }
  }

  /** A close callback of the resource has fired in the first `k` steps. */
  ghost predicate Fired(run: Run, k: nat, r: Resource)
    requires k <= |run.labels|
  {
    FireClose(r) in run.labels[..k]
  }

  lemma {:induction false} RunCloses(run: Run, k: nat, r: Resource)
    requires IsRun(run) && k < |run.states|
    ensures IsClosed(run.states[k].closers, r) <==> Fired(run, k, r)
    decreases k
  {
    if k > 0 {
      RunCloses(run, k - 1, r);
      assert ReachedAt(run, k);
      StepCloses(run.states[k - 1], run.labels[k - 1], r);
      assert run.labels[..k] == run.labels[..k - 1] + [run.labels[k - 1]];
    }
  }

  // ---------------------------------------------------------------- one step

  /** The resource that the step creates, if its request is granted. */
  function Makes(st: System, l: Label): (made: Option<Resource>)
    ensures made.Some? ==> l.CreateTransport? || l.CreateProducer? || l.CreateConsumer?
  {
    if l.CreateTransport? then
      if Opens(st, l, l.session, l.participant, "send") || Opens(st, l, l.session, l.participant, "recv")
      then Some(TransportResource(l.transport.value)) else None
    else if l.CreateProducer? then
      if Produces(st, l, l.session, l.participant) then Some(ProducerResource(l.producer.value)) else None
    else if l.CreateConsumer? then
      if Consumes(st, l, l.session, l.participant) then Some(ConsumerResource(l.consumer.value)) else None
    else None
  }

  /** A new resource has its flag down and its own session; only firing raises a flag. */
  function ClosersAfter(st: System, l: Label): map<Resource, Closer> {
    var made := Makes(st, l);
    if made.Some? then st.closers[made.value := Closer(l.session, false)]
    else if l.FireClose? && l.resource in st.closers then
      st.closers[l.resource := Closer(st.closers[l.resource].session, true)]
    else st.closers
  }

  /** A new producer is to be announced to the others, and the first firing to be reported to all. */
  function SpawnedBy(st: System, l: Label): multiset<Task> {
    if l.CreateProducer? && Produces(st, l, l.session, l.participant) then
      multiset{Task(l.session, NewProducer(l.producer.value, l.kind), Some(l.participant))}
    else if l.FireClose? && l.resource in st.closers && !st.closers[l.resource].closed then
      multiset{Task(st.closers[l.resource].session, Closed(l.resource), None)}
    else multiset{}
  }

  function OriginsAfter(st: System, l: Label): map<ProducerId, Origin> {
    if l.CreateProducer? && Produces(st, l, l.session, l.participant) then
      st.origins[l.producer.value := Origin(l.session, l.participant, l.kind)]
    else st.origins
  }

  /** The step does to flags, tasks and origins what is said above. */
  ghost predicate Effects(st: System, l: Label, after: System) {
    && after.closers == ClosersAfter(st, l)
    && after.pending + after.finished == st.pending + st.finished + SpawnedBy(st, l)
    && after.origins == OriginsAfter(st, l)
  }

  lemma TransportEffects(st: System, l: Label)
    requires l.CreateTransport? && Enabled(st, l)
    requires l.session in st.core.sessions ==> st.core.sessions[l.session].router in st.core.servers
    ensures Effects(st, l, Next(st, l))
  {
    TransportRecord(st.core, l.session, l.participant, l.direction, l.transport, l.session, l.participant);
    var holder := TransportSpec(st.core, l.session, l.participant, l.direction, l.transport);
  }

  lemma ProducerEffects(st: System, l: Label)
    requires l.CreateProducer? && Enabled(st, l)
    ensures Effects(st, l, Next(st, l))
  {
    ProducerRecord(st.core, l.session, l.participant, l.on, l.kind, l.producer, l.session, l.participant);
    var holder := ProducerSpec(st.core, l.session, l.participant, l.on, l.kind, l.producer);
  }

  lemma ConsumerEffects(st: System, l: Label)
    requires l.CreateConsumer? && Enabled(st, l)
    ensures Effects(st, l, Next(st, l))
  {
    var c := st.core;
    ConsumerRecord(c, l.session, l.participant, l.on, l.source, l.canConsume, l.consumer, l.session, l.participant);
    var holder := ConsumerSpec(c, l.session, l.participant, l.on, l.source, l.canConsume, l.consumer);
  }

  lemma ChannelEffects(st: System, l: Label)
    requires IsChannelStep(l) && Enabled(st, l)
    ensures Effects(st, l, Next(st, l))
  {
    ChannelStep(st, l);
    if l.RunTask? {
      assert (st.pending - multiset{l.task}) + (st.finished + multiset{l.task}) == st.pending + st.finished;
    } else {
      var x := OneChannelStep(st, l);
    }
  }

  lemma FireEffects(st: System, l: Label)
    requires l.FireClose? && Enabled(st, l)
    ensures Effects(st, l, Next(st, l))
  {
  }

  lemma StepEffects(st: System, l: Label)
    requires CoreOk(st.core) && Enabled(st, l)
    ensures Effects(st, l, Next(st, l))
  {
    if l.CreateTransport? {
      TransportEffects(st, l);
    } else if l.CreateProducer? {
      ProducerEffects(st, l);
    } else if l.CreateConsumer? {
      ConsumerEffects(st, l);
    } else if IsChannelStep(l) {
      ChannelEffects(st, l);
    } else if l.FireClose? {
      FireEffects(st, l);
    } else {
      QuietEffects(st, l);
    }
  }

  lemma QuietEffects(st: System, l: Label)
    requires Enabled(st, l) && (l.Join? || !IsRequest(l)) && !IsChannelStep(l) && !l.FireClose?
    ensures Effects(st, l, Next(st, l))
  {
    if l.Join? {
      assert Next(st, l) == st.(core := Next(st, l).core);
    } else {
      AllocationStep(st, l);
    }
  }

  lemma EffectsAt(run: Run, j: nat)
    requires IsRun(run) && j < |run.labels|
    ensures Effects(run.states[j], run.labels[j], run.states[j + 1])
    ensures Makes(run.states[j], run.labels[j]).Some? ==>
              Makes(run.states[j], run.labels[j]).value !in run.states[j].closers
  {
    ReachableOk(run, j);
    assert ReachedAt(run, j + 1);
    StepEffects(run.states[j], run.labels[j]);
  }

  // ---------------------------------------------------------------- a whole run

  /** The resource that step `j` creates, if its request is granted: producers and consumers on the last transport. */
  ghost function MadeAt(run: Run, j: nat): (made: Option<Resource>)
    requires j < |run.labels| < |run.states|
    ensures made.Some? ==> var l := run.labels[j]; l.CreateTransport? || l.CreateProducer? || l.CreateConsumer?
  {
    var st, l := run.states[j], run.labels[j];
    if l.CreateTransport? then
      if Seated(st.core, l.session, l.participant) && l.transport.Some?
         && (l.direction == "send" || l.direction == "recv")
      then Some(TransportResource(l.transport.value)) else None
    else if l.CreateProducer? then
      if ProducesAt(run, j, l.session, l.participant) then Some(ProducerResource(l.producer.value)) else None
    else if l.CreateConsumer? then
      if ConsumesAt(run, j, l.session, l.participant) then Some(ConsumerResource(l.consumer.value)) else None
    else None
  }

  lemma MadeAtIs(run: Run, j: nat)
    requires IsRun(run) && j < |run.labels|
    ensures MadeAt(run, j) == Makes(run.states[j], run.labels[j])
  {
    var l := run.labels[j];
    if l.CreateProducer? || l.CreateConsumer? { SameGrants(run, j, l.session, l.participant); }
  }

  /** Step `j`, before `k`, creates the resource. */
  ghost predicate MadeBy(run: Run, k: nat, j: nat, r: Resource)
    requires k <= |run.labels| < |run.states|
  {
    j < k && MadeAt(run, j) == Some(r)
  }

  lemma CloserAt(run: Run, j: nat, r: Resource)
    requires IsRun(run) && j < |run.labels|
    ensures var before, after := run.states[j].closers, run.states[j + 1].closers;
            if MadeAt(run, j) == Some(r) then
              r !in before && r in after && after[r].session == run.labels[j].session
            else
              (r in after <==> r in before) && (r in after ==> after[r].session == before[r].session)
  {
    EffectsAt(run, j);
    MadeAtIs(run, j);
  }

  lemma {:induction false} ClosersAreMade(run: Run, k: nat, r: Resource)
    requires IsRun(run) && k < |run.states|
    ensures r in run.states[k].closers ==> exists j: nat :: MadeBy(run, k, j, r)
    ensures forall j: nat :: MadeBy(run, k, j, r) ==>
              r in run.states[k].closers && run.states[k].closers[r].session == run.labels[j].session
    decreases k
  {
    if k == 0 {
      assert ReachedAt(run, 0);
    } else {
      ClosersAreMade(run, k - 1, r);
      CloserAt(run, k - 1, r);
      if MadeAt(run, k - 1) == Some(r) {
        assert MadeBy(run, k, k - 1, r);
      } else if r in run.states[k - 1].closers {
        var j: nat :| MadeBy(run, k - 1, j, r);
        assert MadeBy(run, k, j, r);
      }
      forall j: nat | MadeBy(run, k, j, r)
        ensures r in run.states[k].closers && run.states[k].closers[r].session == run.labels[j].session
      {
        if j < k - 1 { assert MadeBy(run, k - 1, j, r); }
      }
    }
  }

  /**
   Every resource with a close flag was created by exactly one granted request, and every granted
   request leaves its resource with a flag: for the session of the request, and up if and only if
   a close callback has fired.
   */
  lemma ResourcesAreMade(run: Run, k: nat, r: Resource)
    requires IsRun(run) && k < |run.states|
    ensures r in run.states[k].closers <==> exists j: nat :: MadeBy(run, k, j, r)
    ensures forall j: nat :: MadeBy(run, k, j, r) ==>
              run.states[k].closers[r] == Closer(run.labels[j].session, Fired(run, k, r))
  {
    ClosersAreMade(run, k, r);
    RunCloses(run, k, r);
  }

  /** What step `j` runs. */
  ghost function RanAt(run: Run, j: nat): multiset<Task>
    requires j < |run.labels|
  {
    if run.labels[j].RunTask? then multiset{run.labels[j].task} else multiset{}
  }

  lemma SpawnsAt(run: Run, j: nat)
    requires IsRun(run) && j < |run.labels|
    ensures var st, after := run.states[j], run.states[j + 1];
            && after.finished == st.finished + RanAt(run, j)
            && after.pending + after.finished == st.pending + st.finished + SpawnedBy(run.states[j], run.labels[j])
  {
    EffectsAt(run, j);
    FinishesAt(run, j);
  }

  /** How often the first `k` steps spawned the task. */
  ghost function Spawned(run: Run, k: nat, t: Task): nat
    requires k <= |run.labels| < |run.states|
    decreases k
  {
    if k == 0 then 0 else Spawned(run, k - 1, t) + SpawnedBy(run.states[k - 1], run.labels[k - 1])[t]
  }

  /** How often they ran it. */
  ghost function Ran(run: Run, k: nat, t: Task): nat
    requires k <= |run.labels|
    decreases k
  {
    if k == 0 then 0 else Ran(run, k - 1, t) + if run.labels[k - 1] == RunTask(t) then 1 else 0
  }

  lemma TaskMoves(run: Run, j: nat, t: Task)
    requires IsRun(run) && j < |run.labels|
    ensures var st, after := run.states[j], run.states[j + 1];
            var ran := if run.labels[j] == RunTask(t) then 1 else 0;
            && after.finished[t] == st.finished[t] + ran
            && after.pending[t] + ran == st.pending[t] + SpawnedBy(st, run.labels[j])[t]
  {
    SpawnsAt(run, j);
    var st, after := run.states[j], run.states[j + 1];
    assert (after.pending + after.finished)[t]
        == (st.pending + st.finished + SpawnedBy(st, run.labels[j]))[t];
  }

  /** What waits to run is what was spawned and has not run. */
  lemma {:induction false} TasksAreSpawned(run: Run, k: nat, t: Task)
    requires IsRun(run) && k < |run.states|
    ensures run.states[k].finished[t] == Ran(run, k, t)
    ensures run.states[k].pending[t] + Ran(run, k, t) == Spawned(run, k, t)
    decreases k
  {
    if k == 0 {
      assert ReachedAt(run, 0);
    } else {
      TasksAreSpawned(run, k - 1, t);
      TaskMoves(run, k - 1, t);
    }
  }

  /** A created producer is known by who created it, where, and of which kind. */
  lemma CreatedProducerIsKnown(run: Run, j: nat, s: SessionId, p: ParticipantId)
    requires IsRun(run) && j < |run.labels| && ProducesAt(run, j, s, p)
    ensures var l := run.labels[j];
            && l.producer.value in run.states[j + 1].origins
            && run.states[j + 1].origins[l.producer.value] == Origin(s, p, l.kind)
            && Task(s, NewProducer(l.producer.value, l.kind), Some(p)) in run.states[j + 1].pending
  {
    EffectsAt(run, j);
    SameGrants(run, j, s, p);
    SpawnsAt(run, j);
    var l, st, after := run.labels[j], run.states[j], run.states[j + 1];
    var t := Task(s, NewProducer(l.producer.value, l.kind), Some(p));
    assert (after.pending + after.finished)[t] == (st.pending + st.finished + multiset{t})[t];
  }

  /** Several resources are set up as if one after the other. */
  lemma {:induction false} SetUpComposes(st: System, front: seq<PendingEventSetup>, back: seq<PendingEventSetup>)
    ensures SetUpAll(st, []) == st
    ensures front != [] ==> SetUpAll(st, [front[0]]) == SetUp(st, front[0])
    ensures SetUpAll(st, front + back) == SetUpAll(SetUpAll(st, front), back)
    decreases front
  {
    if front == [] {
      assert front + back == back;
    } else {
      assert (front + back)[0] == front[0] && (front + back)[1..] == front[1..] + back;
      SetUpComposes(SetUp(st, front[0]), front[1..], back);
    }
  }
}
