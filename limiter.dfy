/** The in-memory sliding-window rate limiter (backend/services/rate_limiter.py):
    per identifier, the timestamps of the requests admitted within the window. */
module Limiter {
  import opened Wrappers

  const DefaultMaxRequests: int := 10
  const DefaultWindowSeconds: int := 60
  const OutboundMaxRequests: int := 5
  const OutboundWindowSeconds: int := 1
  const OutboundPrefix: string := "outbound:"

  /** The identifier's list; the source's `defaultdict(list)` reads a missing key as empty. */
  function Window(requests: map<string, seq<int>>, id: string): (ts: seq<int>)
    ensures id in requests ==> ts == requests[id]
    ensures id !in requests ==> ts == []
  {
    if id in requests then requests[id] else []
  }

  /** `[ts for ts in timestamps if ts > start]`. */
  function KeepAfter(ts: seq<int>, start: int): (r: seq<int>)
    ensures |r| <= |ts|
    ensures forall t :: t in r ==> t in ts && t > start
    ensures forall t :: t in ts && t > start ==> t in r
    ensures (forall i :: 0 <= i < |ts| ==> ts[i] > start) ==> r == ts
    ensures (forall i :: 0 <= i < |ts| ==> ts[i] <= start) ==> r == []
  {
    if |ts| == 0 then []
    else if ts[0] > start then [ts[0]] + KeepAfter(ts[1..], start)
    else KeepAfter(ts[1..], start)
  }

  /** Pruning keeps every timestamp inside the window as often as it was recorded, and
      none outside it. */
  lemma {:induction false} KeepAfterCounts(ts: seq<int>, start: int)
    ensures forall t :: multiset(KeepAfter(ts, start))[t] == if t > start then multiset(ts)[t] else 0
    decreases |ts|
  {
    if |ts| > 0 {
      KeepAfterCounts(ts[1..], start);
      assert ts == [ts[0]] + ts[1..];
    }
  }

  /** Pruning keeps the recorded order: pruning two runs of timestamps one after the other
      is pruning each and putting the results one after the other. */
  lemma {:induction false} KeepAfterConcat(a: seq<int>, b: seq<int>, start: int)
    ensures KeepAfter(a + b, start) == KeepAfter(a, start) + KeepAfter(b, start)
    decreases |a|
  {
    if |a| == 0 {
      assert a + b == b;
    } else {
      assert (a + b)[1..] == a[1..] + b;
      KeepAfterConcat(a[1..], b, start);
    }
  }

  /** The answer of `check_rate_limit`: admitted, and the requests left in the window. */
  datatype Decision = Decision(allowed: bool, remaining: int)

  /** The decision for one identifier's list at time `now` under the effective maximum
      `limit`, and the list afterwards: prune, then deny when the pruned count has reached
      the limit, or admit and record `now`. */
  function Admit(ts: seq<int>, limit: int, window: int, now: int): (r: (Decision, seq<int>))
    ensures var pruned := KeepAfter(ts, now - window);
      && (r.0.allowed <==> |pruned| < limit)
      && (!r.0.allowed ==> r.0.remaining == 0 && r.1 == pruned)
      && (r.0.allowed ==> r.1 == pruned + [now] && r.0.remaining == limit - |pruned| - 1)
    ensures r.0.allowed ==> 0 <= r.0.remaining < limit
    ensures window > 0 ==> forall t :: t in r.1 ==> t > now - window
    ensures |ts| <= limit ==> |r.1| <= limit
  {
    var pruned := KeepAfter(ts, now - window);
    if |pruned| >= limit then (Decision(false, 0), pruned)
    else (Decision(true, limit - |pruned| - 1), pruned + [now])
  }

  /** `check_rate_limit(id, limit, window)` at time `now` over the whole table: only the
      checked identifier's list changes, and it is then present. */
  function Check(requests: map<string, seq<int>>, id: string, limit: int, window: int, now: int)
    : (r: (Decision, map<string, seq<int>>))
    ensures r.1.Keys == requests.Keys + {id}
    ensures forall k :: k in requests && k != id ==> r.1[k] == requests[k]
    ensures (r.0, r.1[id]) == Admit(Window(requests, id), limit, window, now)
  {
    var pruned := KeepAfter(Window(requests, id), now - window);
    var cleaned := requests[id := pruned];
    if |pruned| >= limit then (Decision(false, 0), cleaned)
    else (Decision(true, limit - |pruned| - 1), cleaned[id := pruned + [now]])
  }

  /** Checks of one list at the given times, in order: the verdicts and the final list. */
  function Burst(ts: seq<int>, limit: int, window: int, times: seq<int>): (seq<bool>, seq<int>)
    decreases |times|
  {
    if |times| == 0 then ([], ts)
    else
      var prev := Burst(ts, limit, window, times[..|times| - 1]);
      var step := Admit(prev.1, limit, window, times[|times| - 1]);
      (prev.0 + [step.0.allowed], step.1)
  }

  function Min(a: int, b: int): int { if a <= b then a else b }
  function Max(a: int, b: int): int { if a <= b then b else a }

  /** When every stored time is still inside the window, nothing is pruned: the call is
      admitted exactly when the list holds fewer than `limit` times. */
  lemma AdmitInside(stored: seq<int>, limit: int, window: int, now: int)
    requires forall i :: 0 <= i < |stored| ==> stored[i] > now - window
    ensures Admit(stored, limit, window, now)
      == if |stored| < limit then (Decision(true, limit - |stored| - 1), stored + [now])
         else (Decision(false, 0), stored)
  {
    assert KeepAfter(stored, now - window) == stored;
  }

  /** Calls from one identifier, all inside one window span and starting from an empty
      list: the list then holds the first `limit` call times (all of them when fewer). */
  lemma {:induction false} BurstStored(limit: int, window: int, times: seq<int>, lo: int)
    requires forall i :: 0 <= i < |times| ==> lo <= times[i] < lo + window
    ensures Burst([], limit, window, times).1 == times[..Min(|times|, Max(limit, 0))]
    decreases |times|
  {
    if |times| > 0 {
      var n := |times| - 1;
      var prefix := times[..n];
      assert forall i :: 0 <= i < |prefix| ==> lo <= prefix[i] < lo + window by {
        forall i | 0 <= i < |prefix| ensures lo <= prefix[i] < lo + window { assert prefix[i] == times[i]; }
      }
      BurstStored(limit, window, prefix, lo);
      var stored := Burst([], limit, window, prefix).1;
      StoredPrefix(times, Max(limit, 0));
      assert forall i :: 0 <= i < |stored| ==> stored[i] > times[n] - window by {
        forall i | 0 <= i < |stored| ensures stored[i] > times[n] - window {
          assert stored[i] == times[i];
        }
      }
      AdmitInside(stored, limit, window, times[n]);
    }
  }

  /** The list arithmetic of one step of `BurstStored`: the first `Min(n, cap)` times, plus
      the next one when fewer than `limit` are stored, are the first `Min(n + 1, cap)`. */
  lemma StoredPrefix(times: seq<int>, cap: int)
    requires |times| > 0 && cap >= 0
    ensures var n := |times| - 1;
      && times[..n][..Min(n, cap)] == times[..Min(n, cap)]
      && (n < cap ==> times[..Min(n, cap)] + [times[n]] == times[..Min(n + 1, cap)])
      && (n >= cap ==> times[..Min(n, cap)] == times[..Min(n + 1, cap)])
  {
    var n := |times| - 1;
    if n < cap {
      assert times[..n] + [times[n]] == times;
    }
  }

  /** The same calls: the verdict for the call at position `j` is admission exactly when
      `j < limit`; with the default of 10, the 11th call within the window is denied. */
  lemma {:induction false} BurstVerdicts(limit: int, window: int, times: seq<int>, lo: int)
    requires forall i :: 0 <= i < |times| ==> lo <= times[i] < lo + window
    ensures |Burst([], limit, window, times).0| == |times|
    ensures forall j :: 0 <= j < |times| ==> Burst([], limit, window, times).0[j] == (j < limit)
    decreases |times|
  {
    if |times| > 0 {
      var n := |times| - 1;
      var prefix := times[..n];
      assert forall i :: 0 <= i < |prefix| ==> lo <= prefix[i] < lo + window by {
        forall i | 0 <= i < |prefix| ensures lo <= prefix[i] < lo + window { assert prefix[i] == times[i]; }
      }
      BurstVerdicts(limit, window, prefix, lo);
      BurstStored(limit, window, prefix, lo);
      var before := Burst([], limit, window, prefix);
      assert forall i :: 0 <= i < |before.1| ==> before.1[i] > times[n] - window by {
        forall i | 0 <= i < |before.1| ensures before.1[i] > times[n] - window {
          assert before.1[i] == times[i];
        }
      }
      AdmitInside(before.1, limit, window, times[n]);
      var whole := Burst([], limit, window, times);
      forall j | 0 <= j < |times| ensures whole.0[j] == (j < limit) {
        if j < n { assert whole.0[j] == before.0[j]; }
      }
    }
  }

  /** Once every stored request for an identifier has left the window, a positive limit
      admits the next call again with `limit - 1` remaining. */
  lemma AdmitsAfterWindow(ts: seq<int>, limit: int, window: int, now: int)
    requires forall i :: 0 <= i < |ts| ==> ts[i] <= now - window
    requires limit >= 1
    ensures Admit(ts, limit, window, now) == (Decision(true, limit - 1), [now])
  {
    assert KeepAfter(ts, now - window) == [];
    assert [] + [now] == [now];
  }

  class RateLimiter {
    const maxRequestsPerMinute: int
    var requests: map<string, seq<int>>

    /** `RateLimiter()`; `envMax` is the parsed MAX_REQUESTS_PER_MINUTE variable. */
    constructor (envMax: Option<int>)
      ensures maxRequestsPerMinute == envMax.GetOr(DefaultMaxRequests)
      ensures requests == map[]
    {
      maxRequestsPerMinute := envMax.GetOr(DefaultMaxRequests);
      requests := map[];
    }

    /** `close`: forget every window. */
    method Close()
      modifies this
      ensures requests == map[]
    {
      requests := map[];
    }

    /** `_clean_old_requests`: keep only the identifier's timestamps after `now - window`. */
    method CleanOldRequests(id: string, window: int, now: int)
      modifies this
      ensures requests == old(requests)[id := KeepAfter(Window(old(requests), id), now - window)]
    {
      var windowStart := now - window;
      requests := requests[id := KeepAfter(Window(requests, id), windowStart)];
    }

    /** `check_rate_limit`: an absent or zero `maxRequests` means the configured default. */
    method CheckRateLimit(id: string, maxRequests: Option<int>, window: int, now: int)
      returns (allowed: bool, remaining: int)
      modifies this
      ensures (Decision(allowed, remaining), requests)
        == Check(old(requests), id, OrElse(maxRequests, maxRequestsPerMinute), window, now)
    {
      var limit := OrElse(maxRequests, maxRequestsPerMinute);
      CleanOldRequests(id, window, now);
      var count := |requests[id]|;
      if count >= limit {
        return false, 0;
      }
      requests := requests[id := requests[id] + [now]];
      remaining := limit - count - 1;
      return true, remaining;
    }

    /** `check_outbound_rate_limit(service)`: five calls per second under "outbound:service". */
    method CheckOutboundRateLimit(service: string, now: int) returns (allowed: bool)
      modifies this
      ensures (allowed, requests) == (
        var (d, table) := Check(old(requests), OutboundPrefix + service, OutboundMaxRequests, OutboundWindowSeconds, now);
        (d.allowed, table))
    {
      var remaining;
      allowed, remaining := CheckRateLimit(OutboundPrefix + service, Some(OutboundMaxRequests), OutboundWindowSeconds, now);
    }
  }
}
