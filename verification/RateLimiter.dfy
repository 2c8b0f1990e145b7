/**
 The in-process fixed-window rate limiter, and what it promises of any sequence of requests under a clock that
 does not run backwards: how many requests it can let through in any stretch as long as the window, and that
 it refuses only keys that were busy.
 */
module RateLimiter {
  import opened Prelude

  datatype Window = Window(n: nat, resetAt: int)
  type Counts = map<Id, Window>

  // Allow, on the counter of one key.
  function Count(c: Option<Window>, now: int, window: int): Window {
    if c.None? || now > c.value.resetAt then Window(1, now + window) else c.value.(n := c.value.n + 1)
  }

  function Lookup(counts: Counts, key: Id): Option<Window> {
    if key in counts then Some(counts[key]) else None
  }

  function Allow(counts: Counts, key: Id, now: int, limit: int, window: int): (Counts, bool) {
    var c := Count(Lookup(counts, key), now, window);
    (counts[key := c], c.n <= limit)
  }

  class MemoryLimiter {
    const limit: int
    const window: int
    var counts: Counts

    constructor (limit: int, window: int)
      ensures this.limit == limit && this.window == window && counts == map[]
    {
      this.limit, this.window, counts := limit, window, map[];
    }

    method AllowAt(key: Id, now: int) returns (ok: bool)
      modifies this
      ensures (counts, ok) == Allow(old(counts), key, now, limit, window)
    {
      if key !in counts || now > counts[key].resetAt {
        counts := counts[key := Window(0, now + window)];
      }
      counts := counts[key := counts[key].(n := counts[key].n + 1)];
      assert counts == old(counts)[key := counts[key]];
      ok := counts[key].n <= limit;
    }
  }

  // ---- runs ----

  datatype Request = Request(key: Id, now: int)

  // The counters after the first n requests.
  function After(rs: seq<Request>, n: nat, limit: int, window: int): Counts
    requires n <= |rs|
  {
    if n == 0 then map[] else Allow(After(rs, n - 1, limit, window), rs[n - 1].key, rs[n - 1].now, limit, window).0
  }

  predicate Allowed(rs: seq<Request>, i: nat, limit: int, window: int)
    requires i < |rs|
  {
    Allow(After(rs, i, limit, window), rs[i].key, rs[i].now, limit, window).1
  }

  predicate Forward(rs: seq<Request>) {
    forall i, j :: 0 <= i < j < |rs| ==> rs[i].now <= rs[j].now
  }

  // How many requests on the key from the i-th on are let through between the two times, both included.
  function LetThrough(rs: seq<Request>, i: nat, key: Id, from: int, to: int, limit: int, window: int): nat
    requires i <= |rs|
    decreases |rs| - i
  {
    if i == |rs| then 0
    else
      (if rs[i].key == key && from <= rs[i].now <= to && Allowed(rs, i, limit, window) then 1 else 0)
      + LetThrough(rs, i + 1, key, from, to, limit, window)
  }

  // How many of the first n requests on the key came at or after the time.
  function Since(rs: seq<Request>, n: nat, key: Id, from: int): nat
    requires n <= |rs|
  {
    if n == 0 then 0
    else Since(rs, n - 1, key, from) + (if rs[n - 1].key == key && rs[n - 1].now >= from then 1 else 0)
  }

  // ---- the bound ----

  function Max0(x: int): nat {
    if x < 0 then 0 else x
  }

  // Of what is still to come, how much can be let through between `from` and `from + window`, when the key's
  // counter is as given.
  function Room(c: Option<Window>, from: int, limit: int, window: int): nat {
    if c.None? || c.value.resetAt < from then Max0(2 * limit - 1)
    else if c.value.resetAt < from + window then Max0(limit - c.value.n) + Max0(limit)
    else Max0(limit - c.value.n)
  }

  lemma {:induction false} LateRequestsDoNotCount(rs: seq<Request>, i: nat, key: Id, from: int, limit: int, window: int)
    requires Forward(rs) && i < |rs| && rs[i].now > from + window
    ensures LetThrough(rs, i, key, from, from + window, limit, window) == 0
    decreases |rs| - i
  {
    if i + 1 < |rs| {
      LateRequestsDoNotCount(rs, i + 1, key, from, limit, window);
    }
  }

  lemma {:induction false} LetThroughFits(rs: seq<Request>, i: nat, key: Id, from: int, limit: int, window: int)
    requires Forward(rs) && window >= 0 && i <= |rs|
    requires Lookup(After(rs, i, limit, window), key).Some? ==> Lookup(After(rs, i, limit, window), key).value.n >= 1
    ensures LetThrough(rs, i, key, from, from + window, limit, window)
      <= Room(Lookup(After(rs, i, limit, window), key), from, limit, window)
    decreases |rs| - i
  {
    if i < |rs| {
      if rs[i].now > from + window {
        LateRequestsDoNotCount(rs, i, key, from, limit, window);
      } else {
        LetThroughFits(rs, i + 1, key, from, limit, window);
      }
    }
  }

  /**
   In any stretch of time as long as the window, both ends included, at most twice the limit less one requests
   on a key are let through, and none if the limit is not positive.
   */
  lemma {:induction false} AtMostTwiceLessOne(rs: seq<Request>, key: Id, from: int, limit: int, window: int)
    requires Forward(rs) && window >= 0
    ensures LetThrough(rs, 0, key, from, from + window, limit, window) <= Max0(2 * limit - 1)
  {
    LetThroughFits(rs, 0, key, from, limit, window);
  }

  // ---- the bound is attained ----

  function Burst(n: nat, now: int): (rs: seq<Request>)
    ensures |rs| == n && forall i :: 0 <= i < n ==> rs[i] == Request(0, now)
  {
    seq(n, _ => Request(0, now))
  }

  // One request, the rest of its window's at the window's last instant, and a full window right after.
  function Straddle(limit: nat, window: int): seq<Request>
    requires limit > 0
  {
    [Request(0, 0)] + Burst(limit - 1, window) + Burst(limit, window + 1)
  }

  lemma {:induction false} StraddleAt(limit: nat, window: int, i: nat)
    requires limit > 0 && window > 0 && 0 < i <= 2 * limit
    ensures
      var c := After(Straddle(limit, window), i, limit, window);
      0 in c && c[0] == if i <= limit then Window(i, window) else Window(i - limit, 2 * window + 1)
  {
    if i > 1 {
      StraddleAt(limit, window, i - 1);
    }
  }

  lemma {:induction false} StraddleCount(limit: nat, window: int, i: nat)
    requires limit > 0 && window > 0 && 0 < i <= 2 * limit
    ensures LetThrough(Straddle(limit, window), i, 0, window, 2 * window, limit, window) == 2 * limit - i
    decreases 2 * limit - i
  {
    if i < 2 * limit {
      StraddleAt(limit, window, i);
      StraddleCount(limit, window, i + 1);
    }
  }

  /** For every limit and window the bound is attained. */
  lemma {:induction false} BoundIsAttained(limit: nat, window: int)
    requires limit > 0 && window > 0
    ensures Forward(Straddle(limit, window))
    ensures LetThrough(Straddle(limit, window), 0, 0, window, window + window, limit, window) == 2 * limit - 1
  {
    StraddleCount(limit, window, 1);
  }

  // ---- refusals ----

  lemma {:induction false} WindowCounts(rs: seq<Request>, n: nat, key: Id, limit: int, window: int)
    requires Forward(rs) && window >= 0 && n <= |rs| && key in After(rs, n, limit, window)
    ensures
      var c := After(rs, n, limit, window)[key];
      c.n <= Since(rs, n, key, c.resetAt - window) && n > 0 && c.resetAt - window <= rs[n - 1].now
  {
    var i := n - 1;
    var before := After(rs, i, limit, window);
    if key in before {
      WindowCounts(rs, i, key, limit, window);
    }
  }

  lemma {:induction false} SinceEarlier(rs: seq<Request>, n: nat, key: Id, early: int, late: int)
    requires n <= |rs| && early <= late
    ensures Since(rs, n, key, late) <= Since(rs, n, key, early)
  {
    if n > 0 {
      SinceEarlier(rs, n - 1, key, early, late);
    }
  }

  /** A request is refused only if at least `limit` earlier requests on its key came in the window before it. */
  lemma {:induction false} RefusedOnlyWhenBusy(rs: seq<Request>, i: nat, limit: int, window: int)
    requires Forward(rs) && window >= 0 && i < |rs| && limit >= 1 && !Allowed(rs, i, limit, window)
    ensures Since(rs, i, rs[i].key, rs[i].now - window) >= limit
  {
    var key := rs[i].key;
    var before := After(rs, i, limit, window);
    assert key in before && rs[i].now <= before[key].resetAt;
    WindowCounts(rs, i, key, limit, window);
    SinceEarlier(rs, i, key, rs[i].now - window, before[key].resetAt - window);
  }
}
