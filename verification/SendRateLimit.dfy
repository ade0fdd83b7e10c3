/** The per-address sliding-window limiter, against one that remembers every accepted send. */
module SendRateLimit {

  const WINDOW_MS: int := 60_000

  ghost predicate Sorted(s: seq<int>) {
    forall i, j | 0 <= i < j < |s| :: s[i] <= s[j]
  }

  /** The timestamps still inside the window. */
  function Fresh(s: seq<int>, now: int): seq<int> {
    if s == [] then [] else (if now - s[0] < WINDOW_MS then [s[0]] else []) + Fresh(s[1..], now)
  }

  lemma {:induction false} FreshLast(s: seq<int>, t: int, now: int)
    ensures Fresh(s + [t], now) == Fresh(s, now) + (if now - t < WINDOW_MS then [t] else [])
  {
    if s == [] {
      assert s + [t] == [t];
    } else {
      FreshLast(s[1..], t, now);
      assert (s + [t])[1..] == s[1..] + [t];
    }
  }

  /** How many timestamps are younger than a minute. */
  lemma {:induction false} FreshIs(s: seq<int>, now: int)
    ensures |Fresh(s, now)| == |set i | 0 <= i < |s| && now - s[i] < 60_000|
  {
    var all := set i | 0 <= i < |s| && now - s[i] < 60_000;
    if s == [] {
      assert all == {};
    } else {
      var n := |s| - 1;
      var init := s[..n];
      FreshIs(init, now);
      FreshLast(init, s[n], now);
      assert s == init + [s[n]];
      var before := set i | 0 <= i < |init| && now - init[i] < 60_000;
      assert all == if now - s[n] < 60_000 then before + {n} else before;
    }
  }

  /** In an ordered history the fresh timestamps are a suffix. */
  lemma {:induction false} FreshIsSuffix(s: seq<int>, now: int)
    requires Sorted(s)
    ensures |Fresh(s, now)| <= |s| && Fresh(s, now) == s[|s| - |Fresh(s, now)|..]
    ensures forall i | 0 <= i < |s| :: i >= |s| - |Fresh(s, now)| <==> now - s[i] < WINDOW_MS
  {
    if s != [] {
      FreshIsSuffix(s[1..], now);
      if now - s[0] < WINDOW_MS {
        assert forall i | 0 <= i < |s[1..]| :: now - s[1..][i] < WINDOW_MS;
        assert |Fresh(s[1..], now)| == |s[1..]|;
      }
    }
  }

  /** `kept` is `all` without a stale beginning. */
  ghost predicate Covers(kept: seq<int>, all: seq<int>, clock: int) {
    |kept| <= |all| && kept == all[|all| - |kept|..] && forall i | 0 <= i < |all| - |kept| :: clock - all[i] >= WINDOW_MS
  }

  lemma {:induction false} FreshSkipsStale(stale: seq<int>, kept: seq<int>, now: int)
    requires forall i | 0 <= i < |stale| :: now - stale[i] >= WINDOW_MS
    ensures Fresh(stale + kept, now) == Fresh(kept, now)
  {
    if stale == [] {
      assert stale + kept == kept;
    } else {
      assert (stale + kept)[1..] == stale[1..] + kept;
      FreshSkipsStale(stale[1..], kept, now);
    }
  }

  lemma CoversFresh(kept: seq<int>, all: seq<int>, clock: int, now: int)
    requires Sorted(all) && Covers(kept, all, clock) && clock <= now
    ensures Fresh(kept, now) == Fresh(all, now) && Covers(Fresh(kept, now), all, now)
  {
    var stale := all[..|all| - |kept|];
    assert all == stale + kept;
    FreshSkipsStale(stale, kept, now);
    FreshIsSuffix(all, now);
  }

  /** No two sends of one window are further apart in the list than the limit allows. */
  ghost predicate Spaced(s: seq<int>, limit: real) {
    forall i, j | 0 <= i <= j < |s| && s[j] - s[i] < WINDOW_MS :: (j - i) as real < limit
  }

  lemma SpacedPush(s: seq<int>, now: int, limit: real)
    requires Sorted(s) && Spaced(s, limit) && limit > 0.0
    requires |Fresh(s, now)| as real < limit
    ensures Spaced(s + [now], limit)
  {
    FreshIsSuffix(s, now);
    var t := s + [now];
    forall i, j | 0 <= i <= j < |t| && t[j] - t[i] < WINDOW_MS
      ensures (j - i) as real < limit
    {
      if j < |s| {
        assert t[i] == s[i] && t[j] == s[j];
      } else if i < |s| {
        assert now - s[i] < WINDOW_MS;
      }
    }
  }

  /** Sends in the half-open window that starts at `from`. */
  function InWindow(s: seq<int>, from: int): nat {
    if s == [] then 0 else InWindow(s[..|s| - 1], from) + (if from <= s[|s| - 1] < from + WINDOW_MS then 1 else 0)
  }

  lemma {:induction false} InWindowIs(s: seq<int>, from: int)
    ensures InWindow(s, from) == |set i | 0 <= i < |s| && from <= s[i] < from + 60_000|
  {
    var all := set i | 0 <= i < |s| && from <= s[i] < from + 60_000;
    if s == [] {
      assert all == {};
    } else {
      var n := |s| - 1;
      var init := s[..n];
      InWindowIs(init, from);
      var before := set i | 0 <= i < |init| && from <= init[i] < from + 60_000;
      assert all == if from <= s[n] < from + 60_000 then before + {n} else before;
    }
  }

  lemma {:induction false} InWindowAtMost(s: seq<int>, from: int, first: nat)
    requires first <= |s| && forall i | 0 <= i < first :: s[i] < from
    ensures InWindow(s, from) <= |s| - first
    decreases |s|
  {
    if |s| > first {
      InWindowAtMost(s[..|s| - 1], from, first);
    } else if s != [] {
      InWindowAtMost(s[..|s| - 1], from, first - 1);
    }
  }

  /** No window of the history holds more sends than the limit, rounded up when it is not whole. */
  lemma {:induction false} WindowHoldsLimit(s: seq<int>, from: int, limit: real)
    requires Sorted(s) && Spaced(s, limit)
    ensures InWindow(s, from) > 0 ==> (InWindow(s, from) - 1) as real < limit
    decreases |s|
  {
    if s != [] {
      var last := |s| - 1;
      if from <= s[last] < from + WINDOW_MS {
        var first := FirstFrom(s, from);
        InWindowAtMost(s, from, first);
        assert (last - first) as real < limit;
      } else {
        WindowHoldsLimit(s[..last], from, limit);
      }
    }
  }

  lemma FirstFrom(s: seq<int>, from: int) returns (first: nat)
    requires Sorted(s) && s != [] && s[|s| - 1] >= from
    ensures first < |s| && s[first] >= from && forall i | 0 <= i < first :: s[i] < from
  {
    first := 0;
    while s[first] < from
      decreases |s| - first
      invariant first < |s| && forall i | 0 <= i < first :: s[i] < from
    {
      first := first + 1;
    }
  }

  function Of(m: map<string, seq<int>>, ip: string): seq<int> {
    if ip in m then m[ip] else []
  }

  /** What is kept for one address answers for its whole history. */
  ghost predicate AddressOk(kept: seq<int>, all: seq<int>, clock: int, limit: real) {
    && Covers(kept, all, clock)
    && Sorted(all)
    && Spaced(all, limit)
    && forall i | 0 <= i < |all| :: all[i] <= clock
  }

  predicate Active(kept: seq<int>, now: int) {
    kept != [] && now - kept[|kept| - 1] <= WINDOW_MS
  }

  lemma SweptOk(kept: seq<int>, all: seq<int>, clock: int, now: int, limit: real)
    requires AddressOk(kept, all, clock, limit) && clock <= now
    ensures AddressOk(kept, all, now, limit)
    ensures AddressOk(if Active(kept, now) then kept else [], all, now, limit)
  {
    if !Active(kept, now) && kept != [] {
      assert all[|all| - 1] == kept[|kept| - 1];
    }
  }

  lemma PruneOk(kept: seq<int>, all: seq<int>, clock: int, now: int, limit: real)
    requires AddressOk(kept, all, clock, limit) && clock <= now
    ensures Fresh(kept, now) == Fresh(all, now)
    ensures AddressOk(Fresh(kept, now), all, now, limit)
  {
    CoversFresh(kept, all, clock, now);
  }

  lemma PushOk(all: seq<int>, now: int, limit: real)
    requires AddressOk(Fresh(all, now), all, now, limit) && limit > 0.0
    requires |Fresh(all, now)| as real < limit
    ensures AddressOk(Fresh(all, now) + [now], all + [now], now, limit)
  {
    hide Fresh, Spaced;
    SpacedPush(all, now, limit);
    var n := |all| - |Fresh(all, now)|;
    assert (all + [now])[n..] == all[n..] + [now];
  }

  class SendRateLimitGuard {
    const limit: real
    var hits: map<string, seq<int>>
    var lastSweep: int

    /** Every accepted send of every address; the program does not keep it. */
    ghost var accepted: map<string, seq<int>>
    ghost var clock: int

    ghost predicate Valid()
      reads this
    {
      limit > 0.0 && forall ip :: AddressOk(Of(hits, ip), Of(accepted, ip), clock, limit)
    }

    constructor (limit: real, ghost clock: int)
      requires limit > 0.0
      ensures Valid() && this.limit == limit && accepted == map[] && this.clock == clock
    {
      this.limit := limit;
      hits := map[];
      lastSweep := 0;
      accepted := map[];
      this.clock := clock;
    }

    /** Idle addresses are forgotten, and nothing else. */
    method Sweep(now: int)
      modifies this`hits, this`lastSweep
      ensures lastSweep == now
      ensures hits == map ip | ip in old(hits) && Active(old(hits)[ip], now) :: old(hits)[ip]
      ensures forall ip :: ip in hits <==>
        var kept := Of(old(hits), ip); kept != [] && now - kept[|kept| - 1] <= 60_000
    {
      lastSweep := now;
      var keys := hits.Keys;
      while keys != {}
        invariant lastSweep == now && keys <= hits.Keys
        invariant forall ip | ip in hits :: ip in old(hits) && hits[ip] == old(hits)[ip] && (ip in keys || Active(hits[ip], now))
        invariant forall ip | ip in old(hits) && ip !in hits :: !Active(old(hits)[ip], now)
        decreases |keys|
      {
        var k :| k in keys;
        keys := keys - {k};
        if !Active(hits[k], now) {
          hits := hits - {k};
        }
      }
    }

    /** Sweeping, at most once a minute, forgets nothing that still matters. */
    method SweepWhenDue(now: int)
      requires Valid() && clock <= now
      modifies this`hits, this`lastSweep, this`clock
      ensures Valid() && clock == now
    {
      hide AddressOk, Active;
      forall a {
        SweptOk(Of(hits, a), Of(accepted, a), clock, now, limit);
      }
      if now - lastSweep > WINDOW_MS {
        Sweep(now);
        NothingActive(now);
        assert forall a :: Of(hits, a) == if Active(Of(old(hits), a), now) then Of(old(hits), a) else [];
      }
      clock := now;
    }

    /** Accepts exactly when the full history has fewer than `limit` sends of the address in the window. */
    method CanActivate(ip: string, now: int) returns (ok: bool)
      requires Valid() && clock <= now
      modifies this
      ensures Valid() && clock == now
      ensures ok <==> |Fresh(Of(old(accepted), ip), now)| as real < limit
      ensures var all := if ip in old(accepted) then old(accepted)[ip] else [];
        ok <==> |set i | 0 <= i < |all| && now - all[i] < 60_000| as real < limit
      ensures accepted == if ok then old(accepted)[ip := Of(old(accepted), ip) + [now]] else old(accepted)
    {
      FreshIs(Of(accepted, ip), now);
      hide AddressOk, Fresh, Active;
      SweepWhenDue(now);
      ghost var all := Of(accepted, ip);
      var recent := Fresh(Of(hits, ip), now);
      PruneOk(Of(hits, ip), all, now, now, limit);
      if |recent| as real >= limit {
        hits := hits[ip := recent];
        return false;
      }
      PushOk(all, now, limit);
      ghost var (hits0, accepted0) := (hits, accepted);
      hits := hits[ip := recent + [now]];
      accepted := accepted[ip := all + [now]];
      forall a
        ensures AddressOk(Of(hits, a), Of(accepted, a), now, limit)
      {
        assert AddressOk(Of(hits0, a), Of(accepted0, a), now, limit);
      }
      return true;
    }
  }

  lemma NothingActive(now: int)
    ensures !Active([], now)
  {
  }

  // ---------------------------------------------------------------------------
  // Whole histories
  // ---------------------------------------------------------------------------

  datatype Request = Request(ip: string, now: int)

  /** What a limiter accepts that forgets nothing. */
  function History(requests: seq<Request>, limit: real): map<string, seq<int>> {
    if requests == [] then map[]
    else
      var before := History(requests[..|requests| - 1], limit);
      var Request(ip, now) := requests[|requests| - 1];
      if Accepts(before, ip, now, limit) then before[ip := Of(before, ip) + [now]] else before
  }

  predicate Accepts(history: map<string, seq<int>>, ip: string, now: int, limit: real) {
    |Fresh(Of(history, ip), now)| as real < limit
  }

  predicate InTimeOrder(clock: int, requests: seq<Request>) {
    && (forall i | 0 <= i < |requests| :: clock <= requests[i].now)
    && (forall i, j | 0 <= i < j < |requests| :: requests[i].now <= requests[j].now)
  }

  /** At most the limit, rounded up when it is not whole. */
  predicate WithinLimit(n: nat, limit: real) { n > 0 ==> (n - 1) as real < limit }

  /**
   * Any sequence of requests in time order: each is answered as the limiter that forgets nothing would, and no
   * address ever has more accepted sends in a half-open window than the limit.
   */
  method ServeAll(guard: SendRateLimitGuard, requests: seq<Request>) returns (answers: seq<bool>)
    requires guard.Valid() && guard.accepted == map[] && InTimeOrder(guard.clock, requests)
    modifies guard
    ensures |answers| == |requests|
    ensures forall i | 0 <= i < |requests| ::
      answers[i] <==> Accepts(History(requests[..i], guard.limit), requests[i].ip, requests[i].now, guard.limit)
    ensures guard.accepted == History(requests, guard.limit)
    ensures forall ip, from :: WithinLimit(InWindow(Of(History(requests, guard.limit), ip), from), guard.limit)
  {
    hide AddressOk, Fresh, InWindow;
    answers := [];
    assert requests[..0] == [];
    for k := 0 to |requests|
      invariant guard.Valid() && |answers| == k
      invariant forall i | 0 <= i < k ::
        answers[i] <==> Accepts(History(requests[..i], guard.limit), requests[i].ip, requests[i].now, guard.limit)
      invariant guard.accepted == History(requests[..k], guard.limit)
      invariant forall i | k <= i < |requests| :: guard.clock <= requests[i].now
    {
      assert requests[..k + 1][..k] == requests[..k];
      var ok := guard.CanActivate(requests[k].ip, requests[k].now);
      answers := answers + [ok];
    }
    assert requests[..|requests|] == requests;
    forall ip, from
      ensures WithinLimit(InWindow(Of(guard.accepted, ip), from), guard.limit)
    {
      AcceptedWithinLimit(Of(guard.hits, ip), Of(guard.accepted, ip), guard.clock, guard.limit, from);
    }
  }

  lemma AcceptedWithinLimit(kept: seq<int>, all: seq<int>, clock: int, limit: real, from: int)
    requires AddressOk(kept, all, clock, limit)
    ensures WithinLimit(InWindow(all, from), limit)
  {
    WindowHoldsLimit(all, from, limit);
  }
}
