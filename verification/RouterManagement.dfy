/** The router pool with its persistent cursor. */
module RouterManagement {
  import opened Types
  import opened RouterPool

  class RouterManager {
    const routers: seq<RouterId>
    const webrtcServers: map<RouterId, ServerId>
    var nextIndex: nat

    ghost predicate Valid()
      reads this
    {
      routers != [] ==> nextIndex < |routers|
    }

    constructor (routers: seq<RouterId>, webrtcServers: map<RouterId, ServerId>)
      ensures Valid() && this.routers == routers && this.webrtcServers == webrtcServers && nextIndex == 0
    {
      this.routers, this.webrtcServers, this.nextIndex := routers, webrtcServers, 0;
    }

    /**
     One router per worker, paired with the WebRTC server at the same position; surplus
     workers or servers are ignored. A worker is represented by what creating a router on it
     (or its codec list) yields. mediasoup's router ids are distinct.
     */
    static method New(workers: seq<Result<RouterId, RouterManagerError>>, servers: seq<ServerId>)
      returns (r: Result<RouterManager, RouterManagerError>)
      requires forall i, j :: 0 <= i < j < |workers| && workers[i].Ok? && workers[j].Ok? ==> workers[i] != workers[j]
      ensures var n := if |workers| <= |servers| then |workers| else |servers|;
              if forall i :: 0 <= i < n ==> workers[i].Ok? then
                && r.Ok? && fresh(r.value) && r.value.Valid() && r.value.nextIndex == 0
                && |r.value.routers| == n && Distinct(r.value.routers)
                && (forall x :: x in r.value.routers <==> x in r.value.webrtcServers)
                && (forall i :: 0 <= i < n ==> workers[i] == Ok(r.value.routers[i])
                                               && r.value.routers[i] in r.value.webrtcServers
                                               && r.value.webrtcServers[r.value.routers[i]] == servers[i])
              else
                exists i :: 0 <= i < n && workers[i].Err? && r == Err(workers[i].error)
                            && forall j :: 0 <= j < i ==> workers[j].Ok?
    {
      var n := if |workers| <= |servers| then |workers| else |servers|;
      var routers: seq<RouterId>, byRouter: map<RouterId, ServerId> := [], map[];
      for i := 0 to n
        invariant |routers| == i && Distinct(routers)
        invariant forall j :: 0 <= j < i ==> workers[j] == Ok(routers[j])
        invariant forall x :: x in routers <==> x in byRouter
        invariant forall j :: 0 <= j < i ==> routers[j] in byRouter && byRouter[routers[j]] == servers[j]
      {
        match workers[i]
        case Err(e) =>
          return Err(e);
        case Ok(router) =>
          byRouter := byRouter[router := servers[i]];
          routers := routers + [router];
      }
      var manager := new RouterManager(routers, byRouter);
      r := Ok(manager);
    }

    method GetWebRtcServer(router: RouterId) returns (server: Option<ServerId>)
      ensures server == if router in webrtcServers then Some(webrtcServers[router]) else None
    {
      server := if router in webrtcServers then Some(webrtcServers[router]) else None;
    }

    /** One grant: the router under the cursor, and the cursor steps on before the lock is released. */
    method GetNextRouter() returns (r: Result<RouterId, RouterManagerError>)
      requires Valid()
      modifies this
      ensures Valid()
      ensures routers == [] ==> r == Err(EmptyPool) && nextIndex == old(nextIndex)
      ensures routers != [] ==> r.Ok? && Grant(routers, old(nextIndex), r.value, nextIndex)
    {
      if routers == [] { return Err(EmptyPool); }
      var index := nextIndex;
      nextIndex := (index + 1) % |routers|;
      r := Ok(routers[index]);
    }

    /**
     One turn of the pool. The caller holds the core lock, so no other grant comes between
     two rounds of the loop.
     */
    method GetAvailableRouter(counters: map<RouterId, usize>, cap: usize) returns (r: Option<RouterId>)
      requires Valid()
      modifies this
      ensures Valid()
      ensures Scanned(r, nextIndex) == FindRouter(routers, counters, cap, old(nextIndex))
      ensures r.None? <==> forall i :: 0 <= i < |routers| ==> !HasRoom(counters, cap, routers[i])
      ensures r.None? ==> nextIndex == old(nextIndex)
      ensures r.Some? ==> exists i: nat ::
                && i < |routers| && NearestWithRoom(routers, counters, cap, old(nextIndex), i)
                && r == Some(routers[i]) && nextIndex == Advance(|routers|, i)
    {
      FindRouterSpec(routers, counters, cap, nextIndex);
      var total := |routers|;
      if total == 0 { return None; }
      for i := 0 to total
        invariant Valid()
        invariant Scan(routers, counters, cap, old(nextIndex), total)
               == Scan(routers, counters, cap, nextIndex, total - i)
      {
        var granted := GetNextRouter();
        match granted
        case Err(_) => return None;
        case Ok(router) =>
          if router in counters {
            var count := counters[router];
            if count < cap { return Some(router); }
          }
      }
      r := None;
    }
  }
}
