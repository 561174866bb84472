/** The fixed-window rate limiter, which forgets expired windows only when it tracks too many keys. */
module FixedWindowLimiter {
  import opened Common

  datatype Window = Window(count: nat, resetAt: int)

  type Windows = map<string, Window>

  datatype Policy = Policy(maxRequests: int, windowMs: nat)

  datatype Decision = Accepted | Rejected(retryAfterSeconds: int)

  const MAX_TRACKED_KEYS := 10_000
  const MS_PER_SECOND := 1000

  predicate Open(windows: Windows, key: string, now: int) {
    key in windows && now < windows[key].resetAt
  }

  /** `Math.ceil(ms / 1000)`. */
  function CeilingSeconds(ms: int): int {
    (ms + MS_PER_SECOND - 1) / MS_PER_SECOND
  }

  function Decide(windows: Windows, policy: Policy, key: string, now: int): Decision {
    if Open(windows, key, now) && windows[key].count >= policy.maxRequests
    then Rejected(CeilingSeconds(windows[key].resetAt - now))
    else Accepted
  }

  /** A limiter that never prunes. */
  function Count(windows: Windows, policy: Policy, key: string, now: int): Windows {
    if !Open(windows, key, now) then windows[key := Window(1, now + policy.windowMs)]
    else if windows[key].count >= policy.maxRequests then windows
    else windows[key := windows[key].(count := windows[key].count + 1)]
  }

  function Pruned(windows: Windows, now: int): Windows {
    if |windows| < MAX_TRACKED_KEYS then windows
    else map key | key in windows && now < windows[key].resetAt :: windows[key]
  }

  /** The limiter as written: it prunes before opening a window. */
  function CountPruning(windows: Windows, policy: Policy, key: string, now: int): Windows {
    if !Open(windows, key, now) then Count(Pruned(windows, now), policy, key, now) else Count(windows, policy, key, now)
  }

  class Limiter {
    const policy: Policy
    var windows: Windows

    constructor (policy: Policy)
      ensures this.policy == policy && windows == map[]
    {
      this.policy, windows := policy, map[];
    }

    /** `consume` at the given time; a rejection says how long to wait, and no longer than needed. */
    method Consume(key: string, now: int) returns (decision: Decision)
      modifies this`windows
      ensures decision == Decide(old(windows), policy, key, now)
      ensures windows == CountPruning(old(windows), policy, key, now)
      ensures decision.Rejected? ==>
                var wait := old(windows[key].resetAt) - now;
                MS_PER_SECOND * (decision.retryAfterSeconds - 1) < wait <= MS_PER_SECOND * decision.retryAfterSeconds
      ensures decision.Rejected? ==> windows == old(windows)
      ensures decision.Accepted? ==>
                key in windows
                && windows[key] == if Open(old(windows), key, now)
                                   then Window(old(windows)[key].count + 1, old(windows)[key].resetAt)
                                   else Window(1, now + policy.windowMs)
      ensures forall other | other != key ::
                && (other in windows ==> other in old(windows) && windows[other] == old(windows)[other])
                && (other in old(windows) && now < old(windows)[other].resetAt ==> other in windows)
    {
      if !Open(windows, key, now) {
        PruneExpiredWhenFull(now);
        windows := windows[key := Window(1, now + policy.windowMs)];
        return Accepted;
      }
      var window := windows[key];
      if window.count >= policy.maxRequests {
        return Rejected(CeilingSeconds(window.resetAt - now));
      }
      windows := windows[key := window.(count := window.count + 1)];
      return Accepted;
    }

    method PruneExpiredWhenFull(now: int)
      modifies this`windows
      ensures windows == Pruned(old(windows), now)
    {
      if |windows| < MAX_TRACKED_KEYS { return; }
      ghost var before := windows;
      var keys := windows.Keys;
      while keys != {}
        invariant keys <= before.Keys
        invariant windows == map key | key in before && (key in keys || now < before[key].resetAt) :: before[key]
        decreases |keys|
      {
        var key :| key in keys;
        if now >= windows[key].resetAt {
          windows := windows - {key};
        }
        keys := keys - {key};
      }
    }
  }

  // Pruning is invisible ------------------------------------------------------------------------------

  datatype Request = Request(key: string, at: int)

  ghost predicate ClockRuns(requests: seq<Request>) {
    forall i, j | 0 <= i < j < |requests| :: requests[i].at <= requests[j].at
  }

  function WindowsAfter(policy: Policy, requests: seq<Request>): Windows {
    if requests == [] then map[]
    else
      var last := requests[|requests| - 1];
      Count(WindowsAfter(policy, requests[..|requests| - 1]), policy, last.key, last.at)
  }

  function PruningAfter(policy: Policy, requests: seq<Request>): Windows {
    if requests == [] then map[]
    else
      var last := requests[|requests| - 1];
      CountPruning(PruningAfter(policy, requests[..|requests| - 1]), policy, last.key, last.at)
  }

  /** The same open windows from now on. */
  ghost predicate Agree(windows: Windows, pruned: Windows, now: int) {
    forall key :: (Open(windows, key, now) <==> Open(pruned, key, now))
                  && (Open(windows, key, now) ==> windows[key] == pruned[key])
  }

  lemma CountsAgree(windows: Windows, pruned: Windows, policy: Policy, key: string, before: int, now: int)
    requires Agree(windows, pruned, before) && before <= now
    ensures Decide(windows, policy, key, now) == Decide(pruned, policy, key, now)
    ensures Agree(Count(windows, policy, key, now), CountPruning(pruned, policy, key, now), now)
  {}

  lemma {:induction false} RunsAgree(policy: Policy, requests: seq<Request>, now: int)
    requires ClockRuns(requests) && (requests != [] ==> requests[|requests| - 1].at <= now)
    ensures Agree(WindowsAfter(policy, requests), PruningAfter(policy, requests), now)
  {
    if requests != [] {
      var n := |requests| - 1;
      var last := requests[n];
      RunsAgree(policy, requests[..n], last.at);
      var windows, pruned := WindowsAfter(policy, requests[..n]), PruningAfter(policy, requests[..n]);
      CountsAgree(windows, pruned, policy, last.key, last.at, last.at);
      hide Count, CountPruning;
      forall k ensures Open(WindowsAfter(policy, requests), k, now) <==> Open(PruningAfter(policy, requests), k, now) {
        assert Open(WindowsAfter(policy, requests), k, last.at) <==> Open(PruningAfter(policy, requests), k, last.at);
      }
    }
  }

  /** With a clock that never goes back, the limiter that prunes decides every request exactly as one
      that never forgets. */
  lemma PruningIsInvisible(policy: Policy, requests: seq<Request>, n: nat)
    requires ClockRuns(requests) && n < |requests|
    ensures Decide(PruningAfter(policy, requests[..n]), policy, requests[n].key, requests[n].at)
         == Decide(WindowsAfter(policy, requests[..n]), policy, requests[n].key, requests[n].at)
  {
    RunsAgree(policy, requests[..n], requests[n].at);
    CountsAgree(WindowsAfter(policy, requests[..n]), PruningAfter(policy, requests[..n]), policy,
                requests[n].key, requests[n].at, requests[n].at);
  }

  // How much it lets through --------------------------------------------------------------------------

  /** The requests of a key accepted between two times, by the limiter as written. */
  function AcceptedBetween(policy: Policy, requests: seq<Request>, key: string, from: int, to: int): nat {
    if requests == [] then 0
    else
      var n := |requests| - 1;
      AcceptedBetween(policy, requests[..n], key, from, to)
      + if requests[n].key == key && from <= requests[n].at < to
           && Decide(PruningAfter(policy, requests[..n]), policy, key, requests[n].at).Accepted? then 1 else 0
  }

  function Allowance(policy: Policy): nat {
    if policy.maxRequests > 1 then policy.maxRequests else 1
  }

  /** Where the count stands against the key's current window, opened before, in or after the interval. */
  ghost predicate Bounded(policy: Policy, windows: Windows, key: string, from: int, to: int, accepted: nat) {
    if key !in windows then accepted == 0
    else
      var window := windows[key];
      var start := window.resetAt - policy.windowMs;
      && 1 <= window.count <= Allowance(policy)
      && (start < from ==> accepted <= window.count - 1)
      && (from <= start < to ==> accepted <= Allowance(policy) - 1 + window.count)
      && (to <= start ==> accepted <= 2 * Allowance(policy) - 1)
  }

  lemma OneMoreCounts(
      policy: Policy, windows: Windows, key: string, from: int, to: int, accepted: nat, request: Request)
    requires to - from <= policy.windowMs && Bounded(policy, windows, key, from, to, accepted)
    requires request.at < from ==> accepted == 0
    requires key in windows ==> windows[key].resetAt - policy.windowMs <= request.at
    ensures var counts := request.key == key && from <= request.at < to
            && Decide(windows, policy, key, request.at).Accepted?;
            Bounded(policy, Count(windows, policy, request.key, request.at), key, from, to, accepted + if counts then 1 else 0)
  {}

  lemma {:induction false} WindowsOpenedBefore(policy: Policy, requests: seq<Request>, key: string, now: int)
    requires forall i | 0 <= i < |requests| :: requests[i].at <= now
    ensures var windows := WindowsAfter(policy, requests);
            key in windows ==> windows[key].resetAt - policy.windowMs <= now
  {
    if requests != [] { WindowsOpenedBefore(policy, requests[..|requests| - 1], key, now); }
  }

  lemma {:induction false} CountStaysBounded(policy: Policy, requests: seq<Request>, key: string, from: int, to: int)
    requires ClockRuns(requests) && to - from <= policy.windowMs
    ensures Bounded(policy, WindowsAfter(policy, requests), key, from, to, AcceptedBetween(policy, requests, key, from, to))
    ensures requests == [] || requests[|requests| - 1].at < from
            ==> AcceptedBetween(policy, requests, key, from, to) == 0
  {
    if requests != [] {
      var n := |requests| - 1;
      CountStaysBounded(policy, requests[..n], key, from, to);
      PruningIsInvisible(policy, requests, n);
      WindowsOpenedBefore(policy, requests[..n], key, requests[n].at);
      var accepted := AcceptedBetween(policy, requests[..n], key, from, to);
      if requests[n].at < from && n > 0 { assert requests[..n][n - 1].at <= requests[n].at; }
      hide Bounded, Count, CountPruning, Decide;
      OneMoreCounts(policy, WindowsAfter(policy, requests[..n]), key, from, to, accepted, requests[n]);
    }
  }

  /** In no interval as long as a window are two full allowances of a key's requests accepted: the
      window that was open when the interval began spent one request on opening. */
  lemma FewerThanTwoAllowances(policy: Policy, requests: seq<Request>, key: string, from: int, to: int)
    requires ClockRuns(requests) && to - from <= policy.windowMs
    ensures AcceptedBetween(policy, requests, key, from, to) <= 2 * Allowance(policy) - 1
  {
    CountStaysBounded(policy, requests, key, from, to);
  }

  lemma {:induction false} AcceptedPrefix(
      policy: Policy, requests: seq<Request>, request: Request, key: string, from: int, to: int)
    ensures AcceptedBetween(policy, requests + [request], key, from, to)
         == AcceptedBetween(policy, requests, key, from, to)
            + if request.key == key && from <= request.at < to
                 && Decide(PruningAfter(policy, requests), policy, key, request.at).Accepted? then 1 else 0
    ensures PruningAfter(policy, requests + [request])
         == CountPruning(PruningAfter(policy, requests), policy, request.key, request.at)
  {}

  /** n requests of one key at the same moment. */
  function Burst(key: string, at: int, n: nat): (requests: seq<Request>)
    ensures |requests| == n && forall i | 0 <= i < n :: requests[i] == Request(key, at)
  {
    seq(n, i => Request(key, at))
  }

  /** A request finds room in its key's open window ... */
  lemma FindsRoom(policy: Policy, window: Window, key: string, at: int)
    requires at < window.resetAt && 1 <= window.count < Allowance(policy)
    ensures Decide(map[key := window], policy, key, at).Accepted?
    ensures CountPruning(map[key := window], policy, key, at) == map[key := window.(count := window.count + 1)]
  {}

  /** ... or opens one. */
  lemma OpensAWindow(policy: Policy, windows: Windows, key: string, at: int)
    requires windows == map[] || exists window :: windows == map[key := window] && window.resetAt <= at
    ensures Decide(windows, policy, key, at).Accepted?
    ensures CountPruning(windows, policy, key, at) == map[key := Window(1, at + policy.windowMs)]
  {}

  /** As long as the key's window is open and has room, every request of a burst gets through. */
  lemma {:induction false} BurstGetsThrough(
      policy: Policy, requests: seq<Request>, window: Window, key: string, at: int, n: nat, from: int, to: int)
    requires PruningAfter(policy, requests) == map[key := window] && at < window.resetAt && from <= at < to
    requires 1 <= window.count && window.count + n <= Allowance(policy)
    ensures PruningAfter(policy, requests + Burst(key, at, n)) == map[key := window.(count := window.count + n)]
    ensures AcceptedBetween(policy, requests + Burst(key, at, n), key, from, to)
         == AcceptedBetween(policy, requests, key, from, to) + n
    decreases n
  {
    hide Decide, CountPruning, PruningAfter, AcceptedBetween;
    if n == 0 {
      assert requests + Burst(key, at, 0) == requests;
    } else {
      BurstGetsThrough(policy, requests, window, key, at, n - 1, from, to);
      var before := requests + Burst(key, at, n - 1);
      assert requests + Burst(key, at, n) == before + [Request(key, at)];
      AcceptedPrefix(policy, before, Request(key, at), key, from, to);
      FindsRoom(policy, window.(count := window.count + n - 1), key, at);
    }
  }

  /** One request when a window opens, the rest of its allowance at its last moment, and a full allowance
      when the next one opens. */
  function Squeeze(policy: Policy): seq<Request> {
    var rest := Allowance(policy) - 1;
    [Request("k", 0)] + Burst("k", policy.windowMs - 1, rest) + [Request("k", policy.windowMs)]
    + Burst("k", policy.windowMs, rest)
  }

  lemma NothingAtFirst(policy: Policy, to: int)
    ensures PruningAfter(policy, []) == map[] && AcceptedBetween(policy, [], "k", 1, to) == 0
  {}

  /** The bound is met, whatever the policy, by windows of two milliseconds or more. */
  lemma TheBoundIsMet(policy: Policy)
    requires policy.windowMs >= 2
    ensures ClockRuns(Squeeze(policy))
    ensures AcceptedBetween(policy, Squeeze(policy), "k", 1, 1 + policy.windowMs) == 2 * Allowance(policy) - 1
  {
    var w, rest, to := policy.windowMs, Allowance(policy) - 1, 1 + policy.windowMs;
    var first: seq<Request> := [Request("k", 0)];
    NothingAtFirst(policy, to);
    hide Decide, CountPruning, PruningAfter, AcceptedBetween;
    OpensAWindow(policy, map[], "k", 0);
    AcceptedPrefix(policy, [], Request("k", 0), "k", 1, to);
    assert [] + first == first;
    BurstGetsThrough(policy, first, Window(1, w), "k", w - 1, rest, 1, to);
    var second := first + Burst("k", w - 1, rest);
    var third := second + [Request("k", w)];
    AcceptedPrefix(policy, second, Request("k", w), "k", 1, to);
    OpensAWindow(policy, map["k" := Window(1 + rest, w)], "k", w);
    BurstGetsThrough(policy, third, Window(1, w + w), "k", w, rest, 1, to);
  }
}
