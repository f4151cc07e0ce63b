/**
 The round-robin scan of the router pool as a function of the cursor, and what it finds.
 */
module RouterPool {
  import opened Types

  /** The cursor after one grant. */
  function Advance(n: nat, cursor: nat): nat
    requires 0 < n
  {
    (cursor + 1) % n
  }

  /** The index `steps` places after `cursor` in a pool of `n`. */
  function Ahead(n: nat, cursor: nat, steps: nat): nat
    requires 0 < n
  {
    (cursor + steps) % n
  }

  /** How many places after `cursor` the index `i` lies, going round. */
  function Distance(n: nat, cursor: nat, i: nat): nat
    requires cursor < n && i < n
  {
    if cursor <= i then i - cursor else i + n - cursor
  }

  /** A router can take a session when it has a counter and that counter is below the cap. */
  predicate HasRoom(counters: map<RouterId, usize>, cap: usize, router: RouterId) {
    router in counters && counters[router] < cap
  }

  datatype Scanned = Scanned(router: Option<RouterId>, cursor: nat)

  /** `tries` rounds of the scan: take the router under the cursor, step on, stop when it has room. */
  function Scan(pool: seq<RouterId>, counters: map<RouterId, usize>, cap: usize, cursor: nat, tries: nat)
    : Scanned
    requires cursor < |pool|
    decreases tries
  {
    if tries == 0 then
      Scanned(None, cursor)
    else if HasRoom(counters, cap, pool[cursor]) then
      Scanned(Some(pool[cursor]), Advance(|pool|, cursor))
    else
      Scan(pool, counters, cap, Advance(|pool|, cursor), tries - 1)
  }

  /** The whole of `get_available_router`: one full turn, or nothing at all on an empty pool. */
  function FindRouter(pool: seq<RouterId>, counters: map<RouterId, usize>, cap: usize, cursor: nat)
    : Scanned
  {
    if |pool| <= cursor then Scanned(None, cursor) else Scan(pool, counters, cap, cursor, |pool|)
  }

  /** The routers granted by `m` consecutive calls of `get_next_router`. */
  function Grants(pool: seq<RouterId>, cursor: nat, m: nat): (granted: seq<RouterId>)
    requires cursor < |pool|
    ensures |granted| == m
    decreases m
  {
    if m == 0 then [] else [pool[cursor]] + Grants(pool, Advance(|pool|, cursor), m - 1)
  }

  /** One call of `get_next_router`: it grants the router under the cursor, which steps on to `next`. */
  predicate Grant(pool: seq<RouterId>, cursor: nat, router: RouterId, next: nat) {
    cursor < |pool| && router == pool[cursor] && next == Advance(|pool|, cursor)
  }

  // ---------------------------------------------------------------- cursor arithmetic

  lemma ModBelow(n: nat, x: nat)
    requires 0 < n && x < 2 * n
    ensures x % n == if x < n then x else x - n
  {
    if x < n { DivUnique(x, n, 0, x); } else { DivUnique(x, n, 1, x - n); }
  }

  lemma MulGap(x: nat, y: nat, n: nat)
    ensures x < y ==> x * n + n <= y * n
  {
    if x < y {
      var more := y - x - 1;
      assert y == x + 1 + more;
      MulSum(x + 1, more, n);
      MulSum(x, 1, n);
    }
  }

  lemma MulSum(x: nat, y: nat, n: nat)
    ensures (x + y) * n == x * n + y * n
    ensures 0 <= y * n
  {
  }

  /** Division with remainder has one answer. */
  lemma DivUnique(x: nat, n: nat, q: nat, r: nat)
    requires 0 < n && r < n && x == q * n + r
    ensures x / n == q && x % n == r
  {
    MulGap(x / n, q, n);
    MulGap(q, x / n, n);
  }

  lemma AheadIs(n: nat, cursor: nat, steps: nat)
    requires cursor < n && steps <= n
    ensures Ahead(n, cursor, steps) == if cursor + steps < n then cursor + steps else cursor + steps - n
    ensures Ahead(n, cursor, steps) < n
  {
    ModBelow(n, cursor + steps);
  }

  lemma AheadOfNext(n: nat, cursor: nat, steps: nat)
    requires cursor < n && steps < n
    ensures Advance(n, cursor) < n
    ensures Ahead(n, Advance(n, cursor), steps) == Ahead(n, cursor, steps + 1)
  {
    ModBelow(n, cursor + 1);
    AheadIs(n, Advance(n, cursor), steps);
    AheadIs(n, cursor, steps + 1);
  }

  /** Going `Distance` places ahead arrives, and the distance is less than a turn. */
  lemma DistanceArrives(n: nat, cursor: nat, i: nat)
    requires cursor < n && i < n
    ensures Distance(n, cursor, i) < n
    ensures Ahead(n, cursor, Distance(n, cursor, i)) == i
  {
    AheadIs(n, cursor, Distance(n, cursor, i));
  }

  /** Moving the cursor on, but not past `i`, brings `i` nearer by exactly that much. */
  lemma DistanceShrinks(n: nat, cursor: nat, i: nat, steps: nat)
    requires cursor < n && i < n && steps <= Distance(n, cursor, i)
    ensures Ahead(n, cursor, steps) < n
    ensures Distance(n, Ahead(n, cursor, steps), i) == Distance(n, cursor, i) - steps
  {
    AheadIs(n, cursor, steps);
  }

  // ---------------------------------------------------------------- what the scan finds

  /** The routers `from <= d < to` places ahead of the cursor all lack room. */
  predicate FullBetween(
    pool: seq<RouterId>, counters: map<RouterId, usize>, cap: usize, cursor: nat, steps: nat)
    requires cursor < |pool|
  {
    forall d: nat :: d < steps ==> !HasRoom(counters, cap, pool[Ahead(|pool|, cursor, d)])
  }

  /**
   The scan stops at the router with room at least cyclic distance from the cursor and leaves
   the cursor just behind it; it gives up only after `tries` routers without room.
   */
  lemma {:induction false} ScanStops(
    pool: seq<RouterId>, counters: map<RouterId, usize>, cap: usize, cursor: nat, tries: nat)
    returns (d: nat)
    requires cursor < |pool| && tries <= |pool|
    ensures d <= tries && FullBetween(pool, counters, cap, cursor, d)
    ensures var found := Scan(pool, counters, cap, cursor, tries);
            if d < tries then
              && HasRoom(counters, cap, pool[Ahead(|pool|, cursor, d)])
              && found == Scanned(Some(pool[Ahead(|pool|, cursor, d)]), Ahead(|pool|, cursor, d + 1))
            else
              found == Scanned(None, Ahead(|pool|, cursor, tries))
    decreases tries
  {
    var n := |pool|;
    AheadIs(n, cursor, 0);
    if tries == 0 {
      d := 0;
    } else if HasRoom(counters, cap, pool[cursor]) {
      d := 0;
      AheadOfNext(n, cursor, 0);
    } else {
      AheadOfNext(n, cursor, 0);
      var e := ScanStops(pool, counters, cap, Advance(n, cursor), tries - 1);
      d := e + 1;
      AheadOfNext(n, cursor, e);
      if e < tries - 1 { AheadOfNext(n, cursor, e + 1); }
      forall k: nat | k < d ensures !HasRoom(counters, cap, pool[Ahead(n, cursor, k)]) {
        if k > 0 { AheadOfNext(n, cursor, k - 1); }
      }
    }
  }

  /** A full turn that finds nothing has seen every router full and put the cursor back. */
  lemma FullTurn(pool: seq<RouterId>, counters: map<RouterId, usize>, cap: usize, cursor: nat)
    requires cursor < |pool| && FullBetween(pool, counters, cap, cursor, |pool|)
    ensures forall i :: 0 <= i < |pool| ==> !HasRoom(counters, cap, pool[i])
    ensures Ahead(|pool|, cursor, |pool|) == cursor
  {
    forall i | 0 <= i < |pool| ensures !HasRoom(counters, cap, pool[i]) {
      DistanceArrives(|pool|, cursor, i);
    }
    AheadIs(|pool|, cursor, |pool|);
  }

  /** `i` is the router with room that the cursor reaches first. */
  predicate NearestWithRoom(pool: seq<RouterId>, counters: map<RouterId, usize>, cap: usize, cursor: nat, i: nat)
    requires cursor < |pool| && i < |pool|
  {
    && HasRoom(counters, cap, pool[i])
    && forall j :: 0 <= j < |pool| && HasRoom(counters, cap, pool[j])
         ==> Distance(|pool|, cursor, i) <= Distance(|pool|, cursor, j)
  }

  /**
   The scan refines "take the nearest router with room": it returns it and leaves the cursor
   one place behind it, and it fails, leaving the cursor where it was, exactly when no router
   has room.
   */
  lemma FindRouterSpec(pool: seq<RouterId>, counters: map<RouterId, usize>, cap: usize, cursor: nat)
    requires pool != [] ==> cursor < |pool|
    ensures var found := FindRouter(pool, counters, cap, cursor);
            && (found.router.None? <==> forall i :: 0 <= i < |pool| ==> !HasRoom(counters, cap, pool[i]))
            && (found.router.None? ==> found.cursor == cursor)
            && (found.router.Some? ==> (exists i: nat ::
                  && i < |pool| && NearestWithRoom(pool, counters, cap, cursor, i)
                  && found == Scanned(Some(pool[i]), Advance(|pool|, i))))
  {
    if pool == [] { return; }
    var n := |pool|;
    var d := ScanStops(pool, counters, cap, cursor, n);
    if d == n {
      FullTurn(pool, counters, cap, cursor);
    } else {
      var i := Ahead(n, cursor, d);
      AheadIs(n, cursor, d);
      AheadIs(n, cursor, d + 1);
      ModBelow(n, i + 1);
      forall j | 0 <= j < n && HasRoom(counters, cap, pool[j])
        ensures Distance(n, cursor, i) <= Distance(n, cursor, j)
      {
        DistanceArrives(n, cursor, j);
        assert d <= Distance(n, cursor, j);
      }
      assert NearestWithRoom(pool, counters, cap, cursor, i);
    }
  }

  // ---------------------------------------------------------------- round-robin windows

  /** How often the index at distance `dist` comes under the cursor in `m` consecutive grants. */
  function Share(n: nat, dist: nat, m: nat): nat
    requires dist < n
    decreases m
  {
    if m == 0 then 0
    else if dist == 0 then 1 + Share(n, n - 1, m - 1)
    else Share(n, dist - 1, m - 1)
  }

  /** Among `m` consecutive grants, the router at index `i` is granted exactly `Share` times. */
  lemma {:induction false} GrantsOf(pool: seq<RouterId>, cursor: nat, m: nat, i: nat)
    requires cursor < |pool| && i < |pool| && Distinct(pool)
    ensures multiset(Grants(pool, cursor, m))[pool[i]] == Share(|pool|, Distance(|pool|, cursor, i), m)
    decreases m
  {
    if m > 0 {
      var next := Advance(|pool|, cursor);
      NextDistance(|pool|, cursor, i);
      GrantsOf(pool, next, m - 1, i);
      ConsCount(pool[cursor], Grants(pool, next, m - 1), pool[i]);
      assert pool[cursor] == pool[i] <==> cursor == i;
    }
  }

  /** One grant later, every index is one place nearer, and the granted one is a turn away. */
  lemma NextDistance(n: nat, cursor: nat, i: nat)
    requires cursor < n && i < n
    ensures Advance(n, cursor) < n
    ensures var d := Distance(n, cursor, i);
            Distance(n, Advance(n, cursor), i) == if d == 0 then n - 1 else d - 1
    ensures Distance(n, cursor, i) == 0 <==> cursor == i
  {
    ModBelow(n, cursor + 1);
  }

  lemma ConsCount(head: RouterId, tail: seq<RouterId>, x: RouterId)
    ensures multiset([head] + tail)[x] == multiset(tail)[x] + if head == x then 1 else 0
  {
    assert multiset([head] + tail) == multiset{head} + multiset(tail);
  }

  /** The nearer index is never behind the farther one, and leads it by at most one grant. */
  lemma {:induction false} ShareLead(n: nat, near: nat, far: nat, m: nat)
    requires near <= far < n
    ensures Share(n, far, m) <= Share(n, near, m) <= Share(n, far, m) + 1
    decreases m
  {
    if m > 0 && far > 0 {
      if near == 0 {
        ShareLead(n, far - 1, n - 1, m - 1);
      } else {
        ShareLead(n, near - 1, far - 1, m - 1);
      }
    }
  }

  lemma {:induction false} ShareOfOneTurn(n: nat, dist: nat, m: nat)
    requires dist < n
    ensures m <= dist ==> Share(n, dist, m) == 0
    ensures dist < m <= dist + n ==> Share(n, dist, m) == 1
    decreases m
  {
    if m > 0 {
      ShareOfOneTurn(n, if dist == 0 then n - 1 else dist - 1, m - 1);
    }
  }

  /** The cursor's positions around a series of consecutive calls, and what each of them granted. */
  predicate ConsecutiveGrants(pool: seq<RouterId>, cursors: seq<nat>, granted: seq<RouterId>) {
    && |cursors| == |granted| + 1
    && forall x: nat :: x < |granted| ==> Grant(pool, cursors[x], granted[x], cursors[x + 1])
  }

  lemma {:induction false} ConsecutiveAreGrants(pool: seq<RouterId>, cursors: seq<nat>, granted: seq<RouterId>)
    requires ConsecutiveGrants(pool, cursors, granted) && cursors[0] < |pool|
    ensures granted == Grants(pool, cursors[0], |granted|)
    decreases granted
  {
    if granted != [] {
      var rest := granted[1..];
      assert Grant(pool, cursors[0], granted[0], cursors[1]);
      assert ConsecutiveGrants(pool, cursors[1..], rest) by {
        forall x: nat | x < |rest| ensures Grant(pool, cursors[1..][x], rest[x], cursors[1..][x + 1]) {
          assert Grant(pool, cursors[x + 1], granted[x + 1], cursors[x + 2]);
        }
      }
      ModBelow(|pool|, cursors[0] + 1);
      ConsecutiveAreGrants(pool, cursors[1..], rest);
      assert granted == [granted[0]] + rest;
    }
  }

  /**
   Round-robin windows: wherever the cursor stands and whoever makes the calls, as many
   consecutive calls as there are routers grant every router exactly once, and among any number
   of them no router is granted more than once more than another.
   */
  lemma RoundRobinWindow(pool: seq<RouterId>, cursors: seq<nat>, granted: seq<RouterId>, i: nat, j: nat)
    requires ConsecutiveGrants(pool, cursors, granted) && Distinct(pool) && i < |pool| && j < |pool|
    ensures |granted| == |pool| ==> multiset(granted)[pool[i]] == 1
    ensures multiset(granted)[pool[i]] <= multiset(granted)[pool[j]] + 1
  {
    if granted == [] { return; }
    assert Grant(pool, cursors[0], granted[0], cursors[1]);
    var n, m, cursor := |pool|, |granted|, cursors[0];
    var d, e := Distance(n, cursor, i), Distance(n, cursor, j);
    ConsecutiveAreGrants(pool, cursors, granted);
    GrantsOf(pool, cursor, m, i);
    GrantsOf(pool, cursor, m, j);
    ShareOfOneTurn(n, d, m);
    if d <= e { ShareLead(n, d, e, m); } else { ShareLead(n, e, d, m); }
  }
}
