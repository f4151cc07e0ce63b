/** How sessions are spread over the routers: capacity, fairness and balance, over every run. */
module Allocation {
  import opened Types
  import opened RouterPool
  import opened CoreModel
  import opened SystemModel
  import opened SystemFrames
  import opened SystemInvariant
  import opened SystemSteps

  // ---------------------------------------------------------------- exact capacity

  /** The sessions served by any of the routers. */
  ghost function SessionsOn(sessions: map<SessionId, Session>, routers: seq<RouterId>): set<SessionId> {
    set s | s in sessions && sessions[s].router in routers
  }

  ghost function Load(sessions: map<SessionId, Session>, routers: seq<RouterId>): nat
    decreases routers
  {
    if routers == [] then 0 else |Served(sessions, routers[0])| + Load(sessions, routers[1..])
  }

  /** The routers partition their sessions. */
  lemma {:induction false} LoadCounts(sessions: map<SessionId, Session>, routers: seq<RouterId>)
    requires Distinct(routers)
    ensures Load(sessions, routers) == |SessionsOn(sessions, routers)|
    decreases routers
  {
    if routers == [] {
      assert SessionsOn(sessions, routers) == {};
    } else {
      assert routers == [routers[0]] + routers[1..];
      LoadCounts(sessions, routers[1..]);
      assert SessionsOn(sessions, routers) == Served(sessions, routers[0]) + SessionsOn(sessions, routers[1..]);
      assert Served(sessions, routers[0]) !! SessionsOn(sessions, routers[1..]);
    }
  }

  /** Loads within the cap add up to the full capacity exactly when every router is full. */
  lemma {:induction false} LoadWithinCapacity(sessions: map<SessionId, Session>, routers: seq<RouterId>, cap: nat)
    requires forall r :: r in routers ==> |Served(sessions, r)| <= cap
    ensures Load(sessions, routers) <= |routers| * cap
    ensures Load(sessions, routers) == |routers| * cap <==> forall r :: r in routers ==> |Served(sessions, r)| == cap
    decreases routers
  {
    if routers != [] {
      var r, rest := routers[0], routers[1..];
      assert routers == [r] + rest;
      LoadWithinCapacity(sessions, rest, cap);
      MulSum(1, |rest|, cap);
      assert (forall x :: x in routers ==> |Served(sessions, x)| == cap)
        <==> |Served(sessions, r)| == cap && forall x :: x in rest ==> |Served(sessions, x)| == cap;
    }
  }

  lemma CapacityOfCore(c: Core)
    requires CoreOk(c)
    ensures |c.sessions| <= |c.pool| * c.cap
    ensures |c.sessions| == |c.pool| * c.cap
       <==> forall i :: 0 <= i < |c.pool| ==> !HasRoom(c.counters, c.cap, c.pool[i])
  {
    LoadCounts(c.sessions, c.pool);
    LoadWithinCapacity(c.sessions, c.pool, c.cap);
    assert SessionsOn(c.sessions, c.pool) == c.sessions.Keys;
    assert |c.sessions.Keys| == |c.sessions|;
    forall r | r in c.pool ensures HasRoom(c.counters, c.cap, r) <==> |Served(c.sessions, r)| != c.cap {
      assert r in c.counters;
    }
  }

  /**
   Exact capacity: a registration succeeds if and only if fewer sessions are live than routers
   times cap, and one that is refused changes nothing.
   */
  lemma ExactCapacity(run: Run, k: nat, s: SessionId, p: ParticipantId)
    requires IsRun(run) && k < |run.states|
    ensures var c := run.states[k].core;
            var registered := CoreModel.Register(c, s, p);
            && (registered.result.Ok? <==> |c.sessions| < |c.pool| * c.cap)
            && (registered.result.Err? ==> registered == Reply(c, Err(AllRoutersFull)))
            && |c.sessions| <= |c.pool| * c.cap
  {
    ReachableOk(run, k);
    var c := run.states[k].core;
    CapacityOfCore(c);
    var i := RegisterSpec(c, s, p);
  }

  // ---------------------------------------------------------------- counters and structure

  /**
   In every reachable state each router's counter is the number of live sessions on it and at
   most the cap; every session has one or two participants, a router with a counter and a
   WebRTC server; only live sessions have senders; and no two holders share a producer.
   */
  lemma ReachableStructure(run: Run, k: nat)
    requires IsRun(run) && k < |run.states|
    ensures var c := run.states[k].core;
            && (forall r :: r in c.counters ==> CounterAgrees(c, r))
            && (forall s :: s in c.sessions ==>
                  && c.sessions[s].router in c.pool
                  && c.sessions[s].router in c.counters && c.sessions[s].router in c.servers
                  && 1 <= |c.sessions[s].participants| <= 2)
            && c.senders.Keys <= c.sessions.Keys
            && (forall q, o, x :: Holds(c.sessions, q, o) && Holds(c.sessions, q, x) ==> o == x)
  {
    ReachableOk(run, k);
  }

  ghost predicate CounterAgrees(c: Core, r: RouterId)
    requires r in c.counters
  {
    c.counters[r] == |Served(c.sessions, r)| && c.counters[r] <= c.cap
  }

  /** Neither lookup that the invariant backs can fail, whatever is asked. */
  lemma LookupsNeverFail(
    run: Run, k: nat, s: SessionId, p: ParticipantId, direction: string, made: Option<TransportId>)
    requires IsRun(run) && k < |run.states|
    ensures var c := run.states[k].core;
            && CoreModel.Register(c, s, p).result != Err(MissingRouterCounter)
            && CoreModel.CreateTransport(c, s, p, direction, made).result != Err(MissingWebRtcServer)
  {
    ReachableOk(run, k);
    RegisterFindsCounter(run.states[k].core, s, p);
    TransportFindsServer(run.states[k].core, s, p, direction, made);
  }

  lemma RegisterFindsCounter(c: Core, s: SessionId, p: ParticipantId)
    requires CursorOk(c)
    ensures CoreModel.Register(c, s, p).result != Err(MissingRouterCounter)
  {
    var i := RegisterSpec(c, s, p);
  }

  lemma TransportFindsServer(c: Core, s: SessionId, p: ParticipantId, direction: string, made: Option<TransportId>)
    requires AllocationOk(c.pool, c.servers, c.cap, c.sessions, c.counters)
    ensures CoreModel.CreateTransport(c, s, p, direction, made).result != Err(MissingWebRtcServer)
  {
  }

  /**
   Closing a live session lowers its router's counter by exactly one, without underflow;
   closing it again, or closing an unknown session, does nothing.
   */
  lemma CloseIsExact(run: Run, k: nat, s: SessionId)
    requires IsRun(run) && k < |run.states|
    ensures var c := run.states[k].core;
            var d := CloseSession(c, s);
            && CloseSession(d, s) == d
            && (if s in c.sessions then
                  && c.sessions[s].router in c.counters && c.counters[c.sessions[s].router] >= 1
                  && d == c.(sessions := c.sessions - {s}, senders := c.senders - {s},
                             counters := c.counters[c.sessions[s].router := c.counters[c.sessions[s].router] - 1])
                else d == c)
  {
    ReachableOk(run, k);
    CloseSessionKeeps(run.states[k].core, s);
  }

  lemma CloseUndoesWithSession(c: Core, s: SessionId, p: ParticipantId, i: nat)
    requires i < |c.pool| && HasRoom(c.counters, c.cap, c.pool[i]) && s !in c.sessions && s !in c.senders
    ensures CloseSession(WithSession(c, s, p, i), s) == c.(cursor := Advance(|c.pool|, i))
  {
    var d := WithSession(c, s, p, i);
    var r := c.pool[i];
    assert d.sessions - {s} == c.sessions;
    assert c.senders - {s} == c.senders;
    assert FetchSub(FetchAdd(c.counters[r])) == c.counters[r];
    assert d.counters[r := FetchSub(d.counters[r])] == c.counters;
  }

  /** Closing a session just registered undoes the registration, except that the cursor has moved on. */
  lemma CloseUndoesRegister(run: Run, k: nat, s: SessionId, p: ParticipantId)
    requires IsRun(run) && k < |run.states| && s !in run.states[k].used
    ensures var c := run.states[k].core;
            var registered := CoreModel.Register(c, s, p).core;
            CloseSession(registered, s) == c.(cursor := registered.cursor)
  {
    ReachableOk(run, k);
    var c := run.states[k].core;
    assert s !in c.sessions && s !in c.senders;
    var i := RegisterSpec(c, s, p);
    if CoreModel.Register(c, s, p).result.Ok? {
      CloseUndoesWithSession(c, s, p, i);
    }
  }

  // ---------------------------------------------------------------- what a step does to the allocation

  /** The step is a registration that goes through. */
  predicate Grants(st: System, l: Label) {
    l.Register? && CoreModel.Register(st.core, l.session, l.participant).result.Ok?
  }

  /** The router a granted registration is put on. */
  function GrantedRouter(st: System, l: Label): RouterId
    requires Grants(st, l)
  {
    CoreModel.Register(st.core, l.session, l.participant).core.sessions[l.session].router
  }

  /** Everything but registering and closing leaves cursor, counters and the set of sessions alone. */
  lemma OtherStepAllocation(st: System, l: Label)
    requires Enabled(st, l) && !l.Register? && !l.AbandonRegister? && !l.Close? && !l.Shutdown?
    ensures var c, d := st.core, Next(st, l).core;
            d.pool == c.pool && d.cap == c.cap && d.cursor == c.cursor && d.counters == c.counters
            && d.sessions.Keys == c.sessions.Keys
  {
    if IsRequest(l) {
      RequestStep(st, l);
    } else if IsChannelStep(l) {
      ChannelStep(st, l);
    } else {
      OtherStep(st, l);
    }
  }

  /** What a registration does, for one that is granted and for one that is not. */
  lemma RegisterStepAllocation(st: System, l: Label) returns (j: nat)
    requires Inv(st) && l.Register? && Enabled(st, l)
    ensures if Grants(st, l) then
              && j < |st.core.pool| && NearestWithRoom(st.core.pool, st.core.counters, st.core.cap, st.core.cursor, j)
              && Next(st, l).core == WithSession(st.core, l.session, l.participant, j)
              && GrantedRouter(st, l) == st.core.pool[j]
            else
              && (forall i :: 0 <= i < |st.core.pool| ==> !HasRoom(st.core.counters, st.core.cap, st.core.pool[i]))
              && Next(st, l).core == st.core
  {
    j := RegisterSpec(st.core, l.session, l.participant);
  }

  // ---------------------------------------------------------------- bounded bypass

  /** Closing sessions never takes room away. */
  lemma {:induction false} RoomAfterClosing(c: Core, order: seq<SessionId>, r: RouterId)
    requires CoreOk(c) && HasRoom(c.counters, c.cap, r)
    ensures HasRoom(CloseAll(c, order).counters, CloseAll(c, order).cap, r)
    decreases order
  {
    if order != [] {
      CloseSessionKeeps(c, order[0]);
      RoomAfterClosing(CloseSession(c, order[0]), order[1..], r);
    }
  }

  /** How far the scan is from reaching the router at index `i`. */
  function Wait(c: Core, i: nat): nat
    requires c.cursor < |c.pool| && i < |c.pool|
  {
    Distance(|c.pool|, c.cursor, i)
  }

  /** The router at index `i` still has room and is at least `moves` places nearer. */
  predicate Nearer(c: Core, d: Core, i: nat, moves: nat)
    requires c.cursor < |c.pool| && i < |c.pool|
  {
    && d.pool == c.pool && d.cursor < |d.pool|
    && HasRoom(d.counters, d.cap, d.pool[i]) && Wait(d, i) + moves <= Wait(c, i)
  }

  lemma RegisterBypass(st: System, l: Label, i: nat)
    requires Inv(st) && Enabled(st, l) && l.Register? && i < |st.core.pool|
    requires HasRoom(st.core.counters, st.core.cap, st.core.pool[i])
    ensures Next(st, l).core.pool == st.core.pool && Next(st, l).core.cursor < |st.core.pool|
    ensures (Grants(st, l) && GrantedRouter(st, l) == st.core.pool[i])
         || Nearer(st.core, Next(st, l).core, i, if Grants(st, l) then 1 else 0)
  {
    var j := RegisterStepAllocation(st, l);
    if Grants(st, l) { PassedOver(st.core, l.session, l.participant, i, j); }
  }

  lemma AbandonBypass(c: Core, passed: nat, i: nat)
    requires c.cursor < |c.pool| && i < |c.pool| && HasRoom(c.counters, c.cap, c.pool[i]) && CanAbandon(c, passed)
    ensures Nearer(c, c.(cursor := Ahead(|c.pool|, c.cursor, passed)), i, 0)
  {
    DistanceArrives(|c.pool|, c.cursor, i);
    DistanceShrinks(|c.pool|, c.cursor, i, passed);
  }

  lemma CloseBypass(c: Core, order: seq<SessionId>, i: nat)
    requires CoreOk(c) && i < |c.pool| && HasRoom(c.counters, c.cap, c.pool[i])
    ensures Nearer(c, CloseAll(c, order), i, 0)
  {
    CloseAllPool(c, order);
    RoomAfterClosing(c, order, c.pool[i]);
  }

  /**
   A router with room that is not picked keeps its room; no step puts it farther from the
   cursor, and each registration granted elsewhere brings it nearer.
   */
  lemma BypassStep(st: System, l: Label, i: nat)
    requires Inv(st) && Enabled(st, l) && i < |st.core.pool|
    requires HasRoom(st.core.counters, st.core.cap, st.core.pool[i])
    ensures Next(st, l).core.pool == st.core.pool && Next(st, l).core.cursor < |st.core.pool|
    ensures (Grants(st, l) && GrantedRouter(st, l) == st.core.pool[i])
         || Nearer(st.core, Next(st, l).core, i, if Grants(st, l) then 1 else 0)
  {
    if l.Register? {
      RegisterBypass(st, l, i);
    } else {
      OtherBypass(st, l, i);
    }
  }

  lemma OtherBypass(st: System, l: Label, i: nat)
    requires Inv(st) && Enabled(st, l) && !l.Register? && i < |st.core.pool|
    requires HasRoom(st.core.counters, st.core.cap, st.core.pool[i])
    ensures Nearer(st.core, Next(st, l).core, i, 0)
  {
    if l.AbandonRegister? {
      AbandonBypass(st.core, l.passed, i);
    } else if l.Close? || l.Shutdown? {
      ClosingBypass(st, l, i);
    } else {
      OtherStepAllocation(st, l);
    }
  }

  lemma ClosingBypass(st: System, l: Label, i: nat)
    requires Inv(st) && Enabled(st, l) && (l.Close? || l.Shutdown?) && i < |st.core.pool|
    requires HasRoom(st.core.counters, st.core.cap, st.core.pool[i])
    ensures Nearer(st.core, Next(st, l).core, i, 0)
  {
    if l.Close? {
      CloseBypass(st.core, [l.session], i);
      CloseOne(st.core, l.session);
    } else {
      CloseBypass(st.core, l.keys, i);
    }
  }

  lemma CloseOne(c: Core, s: SessionId)
    ensures CloseAll(c, [s]) == CloseSession(c, s)
  {
    assert [s][1..] == [];
  }

  lemma PassedOver(c: Core, s: SessionId, p: ParticipantId, i: nat, j: nat)
    requires CoreOk(c) && i < |c.pool| && j < |c.pool| && HasRoom(c.counters, c.cap, c.pool[i])
    requires NearestWithRoom(c.pool, c.counters, c.cap, c.cursor, j)
    ensures var d := WithSession(c, s, p, j);
            && d.cursor < |d.pool|
            && (c.pool[j] == c.pool[i] || (HasRoom(d.counters, d.cap, d.pool[i]) && Wait(d, i) + 1 <= Wait(c, i)))
  {
    NextDistance(|c.pool|, j, i);
    ModBelow(|c.pool|, j + 1);
  }

  /** How many registrations are granted from state `i` of the run to state `k`. */
  ghost function Granted(run: Run, i: nat, k: nat): nat
    requires i <= k <= |run.labels| < |run.states|
    decreases k
  {
    if i == k then 0 else Granted(run, i, k - 1) + if Grants(run.states[k - 1], run.labels[k - 1]) then 1 else 0
  }

  ghost predicate PicksAt(run: Run, j: nat, r: RouterId)
    requires j < |run.labels| < |run.states|
  {
    Grants(run.states[j], run.labels[j]) && GrantedRouter(run.states[j], run.labels[j]) == r
  }

  /** Some registration between the two states is granted on router `r`. */
  ghost predicate Picked(run: Run, i: nat, k: nat, r: RouterId)
    requires k <= |run.labels| < |run.states|
  {
    exists j: nat :: i <= j < k && PicksAt(run, j, r)
  }

  lemma {:induction false} UnpickedComesNearer(run: Run, i: nat, k: nat, x: nat)
    requires IsRun(run) && i <= k < |run.states| && x < |run.states[i].core.pool|
    requires var c := run.states[i].core; HasRoom(c.counters, c.cap, c.pool[x])
    requires !Picked(run, i, k, run.states[i].core.pool[x])
    ensures var c, d := run.states[i].core, run.states[k].core;
            && d.pool == c.pool && c.cursor < |c.pool| && d.cursor < |d.pool|
            && HasRoom(d.counters, d.cap, d.pool[x]) && Wait(d, x) + Granted(run, i, k) <= Wait(c, x)
    decreases k
  {
    CursorInPool(run, i, x);
    if i < k {
      forall j: nat | i <= j < k - 1 ensures !PicksAt(run, j, run.states[i].core.pool[x]) { }
      UnpickedComesNearer(run, i, k - 1, x);
      assert !PicksAt(run, k - 1, run.states[i].core.pool[x]);
      BypassAt(run, k - 1, x);
    }
  }

  lemma CursorInPool(run: Run, k: nat, x: nat)
    requires IsRun(run) && k < |run.states| && x < |run.states[k].core.pool|
    ensures run.states[k].core.cursor < |run.states[k].core.pool|
  {
    ReachableOk(run, k);
  }

  lemma BypassAt(run: Run, j: nat, x: nat)
    requires IsRun(run) && j < |run.labels| && x < |run.states[j].core.pool|
    requires var c := run.states[j].core; c.cursor < |c.pool| && HasRoom(c.counters, c.cap, c.pool[x])
    requires !PicksAt(run, j, run.states[j].core.pool[x])
    ensures var c, d := run.states[j].core, run.states[j + 1].core;
            && d.pool == c.pool && d.cursor < |d.pool| && HasRoom(d.counters, d.cap, d.pool[x])
            && Wait(d, x) + (if Grants(run.states[j], run.labels[j]) then 1 else 0) <= Wait(c, x)
  {
    ReachableOk(run, j);
    assert ReachedAt(run, j + 1);
    BypassStep(run.states[j], run.labels[j], x);
  }

  /**
   Bounded bypass: from any reachable state, a router with room gets a session before as many
   registrations have been granted as there are routers, whatever else happens in between.
   */
  lemma BoundedBypass(run: Run, i: nat, k: nat, x: nat)
    requires IsRun(run) && i <= k < |run.states| && x < |run.states[i].core.pool|
    requires var c := run.states[i].core; HasRoom(c.counters, c.cap, c.pool[x])
    requires Granted(run, i, k) >= |run.states[i].core.pool|
    ensures Picked(run, i, k, run.states[i].core.pool[x])
  {
    ReachableOk(run, i);
    DistanceArrives(|run.states[i].core.pool|, run.states[i].core.cursor, x);
    if !Picked(run, i, k, run.states[i].core.pool[x]) {
      UnpickedComesNearer(run, i, k, x);
    }
  }

  // ---------------------------------------------------------------- balanced load

  /** `rounds` full turns of the pool and `ahead` routers of the next have been handed out. */
  ghost predicate Balanced(c: Core, rounds: nat, ahead: nat) {
    && ahead < |c.pool| && rounds <= c.cap && (rounds == c.cap ==> ahead == 0)
    && (rounds < c.cap ==> c.cursor == ahead)
    && |c.sessions| == rounds * |c.pool| + ahead
    && forall i :: 0 <= i < |c.pool| ==>
         c.pool[i] in c.counters && c.counters[c.pool[i]] == rounds + if i < ahead then 1 else 0
  }

  /** In balance, the router that gets the next session is the one under the cursor. */
  lemma BalancedNext(c: Core, rounds: nat, ahead: nat, j: nat)
    requires CursorOk(c) && Balanced(c, rounds, ahead) && j < |c.pool|
    requires NearestWithRoom(c.pool, c.counters, c.cap, c.cursor, j)
    ensures j == ahead && rounds < c.cap
  {
    assert rounds < c.cap;
    assert HasRoom(c.counters, c.cap, c.pool[ahead]);
    assert Distance(|c.pool|, c.cursor, ahead) == 0;
  }

  lemma BalancedGrant(c: Core, s: SessionId, p: ParticipantId, rounds: nat, ahead: nat)
    returns (rounds': nat, ahead': nat)
    requires Balanced(c, rounds, ahead) && rounds < c.cap && s !in c.sessions && Distinct(c.pool)
    ensures var d := WithSession(c, s, p, ahead);
            Balanced(d, rounds', ahead') && |d.sessions| == |c.sessions| + 1
  {
    rounds', ahead' := if ahead + 1 == |c.pool| then rounds + 1 else rounds,
                       if ahead + 1 == |c.pool| then 0 else ahead + 1;
    ModBelow(|c.pool|, ahead + 1);
    var d := WithSession(c, s, p, ahead);
    assert |d.sessions| == |c.sessions| + 1;
    assert rounds * |c.pool| + |c.pool| == (rounds + 1) * |c.pool|;
    forall i | 0 <= i < |c.pool|
      ensures c.pool[i] in d.counters && d.counters[c.pool[i]] == rounds + if i <= ahead then 1 else 0
    {
      assert c.pool[i] == c.pool[ahead] <==> i == ahead;
    }
  }

  /** None of the first `k` steps closes a session. */
  ghost predicate NothingCloses(run: Run, k: nat)
    requires k <= |run.labels|
  {
    forall j :: 0 <= j < k ==> !run.labels[j].Close? && !run.labels[j].Shutdown?
  }

  lemma BalancedStep(st: System, l: Label, rounds: nat, ahead: nat) returns (rounds': nat, ahead': nat)
    requires Inv(st) && Enabled(st, l) && !l.Close? && !l.Shutdown? && Balanced(st.core, rounds, ahead)
    ensures Next(st, l).core.pool == st.core.pool && Balanced(Next(st, l).core, rounds', ahead')
    ensures |Next(st, l).core.sessions| == |st.core.sessions| + if Grants(st, l) then 1 else 0
  {
    rounds', ahead' := rounds, ahead;
    if l.Register? {
      rounds', ahead' := BalancedRegister(st, l, rounds, ahead);
    } else if l.AbandonRegister? {
      BalancedAbandon(st.core, l.passed, rounds, ahead);
    } else {
      OtherStepAllocation(st, l);
      assert |Next(st, l).core.sessions| == |Next(st, l).core.sessions.Keys| == |st.core.sessions.Keys|;
    }
  }

  lemma BalancedRegister(st: System, l: Label, rounds: nat, ahead: nat) returns (rounds': nat, ahead': nat)
    requires Inv(st) && Enabled(st, l) && l.Register? && Balanced(st.core, rounds, ahead)
    ensures Next(st, l).core.pool == st.core.pool && Balanced(Next(st, l).core, rounds', ahead')
    ensures |Next(st, l).core.sessions| == |st.core.sessions| + if Grants(st, l) then 1 else 0
  {
    rounds', ahead' := rounds, ahead;
    var j := RegisterStepAllocation(st, l);
    if Grants(st, l) {
      BalancedNext(st.core, rounds, ahead, j);
      rounds', ahead' := BalancedGrant(st.core, l.session, l.participant, rounds, ahead);
    }
  }

  /** While there is room the cursor stands on it, so an abandoned scan has passed nothing. */
  lemma BalancedAbandon(c: Core, passed: nat, rounds: nat, ahead: nat)
    requires CursorOk(c) && CanAbandon(c, passed) && Balanced(c, rounds, ahead)
    ensures Balanced(c.(cursor := Ahead(|c.pool|, c.cursor, passed)), rounds, ahead)
  {
    AheadIs(|c.pool|, c.cursor, 0);
    AheadIs(|c.pool|, c.cursor, passed);
    assert passed > 0 ==> !HasRoom(c.counters, c.cap, c.pool[Ahead(|c.pool|, c.cursor, 0)]);
  }

  lemma {:induction false} BalancedRun(run: Run, k: nat) returns (rounds: nat, ahead: nat)
    requires IsRun(run) && k < |run.states| && NothingCloses(run, k) && run.states[0].core.pool != []
    ensures run.states[k].core.pool == run.states[0].core.pool && Balanced(run.states[k].core, rounds, ahead)
    ensures |run.states[k].core.sessions| == Granted(run, 0, k)
    decreases k
  {
    if k == 0 {
      rounds, ahead := 0, 0;
      ReachableOk(run, 0);
      assert Balanced(run.states[0].core, 0, 0);
    } else {
      var r, a := BalancedRun(run, k - 1);
      ReachableOk(run, k - 1);
      assert ReachedAt(run, k);
      rounds, ahead := BalancedStep(run.states[k - 1], run.labels[k - 1], r, a);
    }
  }

  /**
   Balanced load: as long as nothing closes, after `m` granted registrations the router at
   index `i` of `n` holds `m / n` sessions, and one more when `i < m % n`; all routers fill
   together.
   */
  lemma BalancedLoad(run: Run, k: nat, i: nat)
    requires IsRun(run) && k < |run.states| && NothingCloses(run, k) && i < |run.states[0].core.pool|
    ensures var c := run.states[k].core;
            var n, m := |c.pool|, Granted(run, 0, k);
            && c.pool == run.states[0].core.pool && |c.sessions| == m
            && |Served(c.sessions, c.pool[i])| == m / n + (if i < m % n then 1 else 0)
            && (HasRoom(c.counters, c.cap, c.pool[i]) || |Served(c.sessions, c.pool[i])| == c.cap)
            && ((forall j :: 0 <= j < n ==> !HasRoom(c.counters, c.cap, c.pool[j])) <==> m == n * c.cap)
  {
    var rounds, ahead := BalancedRun(run, k);
    ReachableOk(run, k);
    BalancedShare(run.states[k].core, rounds, ahead, i);
  }

  lemma BalancedShare(c: Core, rounds: nat, ahead: nat, i: nat)
    requires CoreOk(c) && Balanced(c, rounds, ahead) && i < |c.pool|
    ensures var n, k := |c.pool|, |c.sessions|;
            && |Served(c.sessions, c.pool[i])| == k / n + (if i < k % n then 1 else 0)
            && (HasRoom(c.counters, c.cap, c.pool[i]) || |Served(c.sessions, c.pool[i])| == c.cap)
            && ((forall j :: 0 <= j < n ==> !HasRoom(c.counters, c.cap, c.pool[j])) <==> k == n * c.cap)
  {
    DivUnique(|c.sessions|, |c.pool|, rounds, ahead);
    CapacityOfCore(c);
  }

  // ---------------------------------------------------------------- which sessions live, and where

  /** There is a place left on some router. */
  predicate PlaceLeft(c: Core) {
    |c.sessions| < |c.pool| * c.cap
  }

  lemma RegisterGranted(c: Core, s: SessionId, p: ParticipantId)
    requires CoreOk(c)
    ensures CoreModel.Register(c, s, p).result.Ok? <==> PlaceLeft(c)
  {
    CapacityOfCore(c);
    var i := RegisterSpec(c, s, p);
  }

  /** Whether `s` has been registered while there was place, and not closed since, after the first `k` steps. */
  ghost function Lives(run: Run, k: nat, s: SessionId): bool
    requires k <= |run.labels| < |run.states|
    decreases k
  {
    if k == 0 then false
    else
      var l := run.labels[k - 1];
      if l.Register? && l.session == s then PlaceLeft(run.states[k - 1].core)
      else Lives(run, k - 1, s) && l != Close(s) && !l.Shutdown?
  }

  lemma LiveStep(st: System, l: Label, s: SessionId)
    requires Inv(st) && Enabled(st, l)
    ensures s in Next(st, l).core.sessions
       <==> if l.Register? && l.session == s then PlaceLeft(st.core)
            else s in st.core.sessions && l != Close(s) && !l.Shutdown?
  {
    if l.Register? {
      RegisterGranted(st.core, l.session, l.participant);
      RegisterKeeps(st.core, l.session, l.participant);
    } else if l.Close? {
      CloseSessionKeeps(st.core, l.session);
    } else if l.Shutdown? {
      CloseAllKeeps(st.core, l.keys);
    } else {
      QuietSessions(st, l);
    }
  }

  lemma QuietSessions(st: System, l: Label)
    requires Enabled(st, l) && !l.Register? && !l.Close? && !l.Shutdown?
    ensures Next(st, l).core.sessions.Keys == st.core.sessions.Keys
  {
    if IsRequest(l) {
      RequestStep(st, l);
    } else if IsChannelStep(l) {
      ChannelStep(st, l);
    }
  }

  lemma LiveAt(run: Run, j: nat, s: SessionId)
    requires IsRun(run) && j < |run.labels|
    ensures var l := run.labels[j];
            s in run.states[j + 1].core.sessions
            <==> if l.Register? && l.session == s then PlaceLeft(run.states[j].core)
                 else s in run.states[j].core.sessions && l != Close(s) && !l.Shutdown?
  {
    ReachableOk(run, j);
    assert ReachedAt(run, j + 1);
    LiveStep(run.states[j], run.labels[j], s);
  }

  /** The live sessions are those registered while there was place and not closed since. */
  lemma {:induction false} LiveSessions(run: Run, k: nat, s: SessionId)
    requires IsRun(run) && k < |run.states|
    ensures s in run.states[k].core.sessions <==> Lives(run, k, s)
    decreases k
  {
    if k == 0 {
      assert ReachedAt(run, 0);
    } else {
      LiveSessions(run, k - 1, s);
      LiveAt(run, k - 1, s);
    }
  }

  lemma StayStep(st: System, l: Label, s: SessionId)
    requires Enabled(st, l) && st.core.sessions.Keys <= st.used
    requires s in st.core.sessions && s in Next(st, l).core.sessions
    ensures Next(st, l).core.sessions[s].router == st.core.sessions[s].router
    ensures Next(st, l).core.sessions[s].maxParticipants == st.core.sessions[s].maxParticipants
  {
    if IsRequest(l) {
      RequestStep(st, l);
    } else if IsChannelStep(l) {
      ChannelStep(st, l);
    } else if l.Shutdown? {
      CloseAllOnlyRemoves(st.core, l.keys, s);
    }
  }

  lemma StayAt(run: Run, j: nat, s: SessionId)
    requires IsRun(run) && j < |run.labels| && s in run.states[j + 1].core.sessions && s in run.states[j].used
    ensures s in run.states[j].core.sessions
    ensures run.states[j + 1].core.sessions[s].router == run.states[j].core.sessions[s].router
  {
    ReachableOk(run, j);
    assert ReachedAt(run, j + 1);
    if s !in run.states[j].core.sessions { GoneStep(run.states[j], run.labels[j], s); }
    StayStep(run.states[j], run.labels[j], s);
  }

  /** A session stays on the router it was registered on for as long as it lives. */
  lemma {:induction false} SessionsStay(run: Run, i: nat, k: nat, s: SessionId)
    requires IsRun(run) && i <= k < |run.states|
    requires s in run.states[i].core.sessions && s in run.states[k].core.sessions
    ensures run.states[k].core.sessions[s].router == run.states[i].core.sessions[s].router
    decreases k
  {
    if i < k {
      UsedOnce(run, i, k - 1, s);
      StayAt(run, k - 1, s);
      SessionsStay(run, i, k - 1, s);
    }
  }

  lemma {:induction false} UsedOnce(run: Run, i: nat, k: nat, s: SessionId)
    requires IsRun(run) && i <= k < |run.states| && s in run.states[i].core.sessions
    ensures s in run.states[k].used
    decreases k
  {
    if i == k {
      ReachableOk(run, i);
    } else {
      UsedOnce(run, i, k - 1, s);
      assert ReachedAt(run, k);
      UsedStays(run.states[k - 1], run.labels[k - 1]);
    }
  }

  lemma UsedStays(st: System, l: Label)
    requires Enabled(st, l)
    ensures st.used <= Next(st, l).used
  {
    if IsRequest(l) {
      RequestStep(st, l);
    } else if IsChannelStep(l) {
      ChannelStep(st, l);
    }
  }
}
