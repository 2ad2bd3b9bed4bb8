/** The readiness poll that waits for a debug adapter to listen: every iteration first checks
    for cancellation, then makes one connection attempt, and sleeps `CheckInterval` ms after a
    failed attempt, until `timeout` ms have elapsed since the start.

    Time and the outside world are a `PollEnv`: whether the k-th connection attempt succeeds,
    how many ms it takes, and the elapsed time from which the cancellation token reports a
    request (if ever). Sleeps are taken to last exactly `CheckInterval`. */
module Readiness {
  import opened Wrappers

  const CheckInterval: nat := 500

  datatype PollEnv = PollEnv(connects: nat -> bool, probeTime: nat -> nat, cancelAt: Option<int>)

  /** `token.isCancellationRequested` at elapsed time `t`. */
  predicate CancelledBy(env: PollEnv, t: int) {
    env.cancelAt.Some? && env.cancelAt.value <= t
  }

  /** Elapsed ms at the start of iteration `k`, when every earlier attempt failed. */
  function StartOf(env: PollEnv, k: nat): (t: int)
    ensures t >= k * CheckInterval
  {
    if k == 0 then 0 else StartOf(env, k - 1) + env.probeTime(k - 1) + CheckInterval
  }

  /** How a poll ends, with the elapsed ms at that moment. */
  datatype PollEnd = Ready(at: int) | CancelledAt(at: int) | TimedOutAt(at: int)

  /** Iteration `k` neither ends the poll before its attempt nor succeeds. */
  predicate Continues(env: PollEnv, timeout: int, k: nat) {
    var t := StartOf(env, k);
    t < timeout && !CancelledBy(env, t) && !env.connects(k)
  }

  /** How iteration `k` ends the poll when it does not continue. */
  function Ending(env: PollEnv, timeout: int, k: nat): PollEnd {
    var t := StartOf(env, k);
    if t >= timeout then TimedOutAt(t)
    else if CancelledBy(env, t) then CancelledAt(t)
    else Ready(t + env.probeTime(k))
  }

  /** The poll from iteration `k` on. */
  function PollFrom(env: PollEnv, timeout: int, k: nat): (r: PollEnd)
    ensures r.TimedOutAt? ==> r.at >= timeout
    ensures r.CancelledAt? ==> r.at < timeout && CancelledBy(env, r.at)
    ensures r.Ready? ==> exists j: nat | j >= k :: StartOf(env, j) < timeout && env.connects(j)
                                                  && !CancelledBy(env, StartOf(env, j))
    decreases timeout - StartOf(env, k)
  {
    if Continues(env, timeout, k) then PollFrom(env, timeout, k + 1) else Ending(env, timeout, k)
  }

  /** The outcome of a whole poll. */
  function Poll(env: PollEnv, timeout: int): PollEnd {
    PollFrom(env, timeout, 0)
  }

  /** The poll loop (`waitForDebugPort`, `waitForPort`): true when an attempt connected. Also
      returns the elapsed ms at return, which callers compare against the cancellation time. */
  method WaitForPort(env: PollEnv, timeout: int) returns (ready: bool, now: int)
    ensures ready <==> Poll(env, timeout).Ready?
    ensures now == Poll(env, timeout).at
  {
    var k: nat := 0;
    var elapsed := 0;
    while elapsed < timeout
      invariant elapsed == StartOf(env, k)
      invariant PollFrom(env, timeout, k) == Poll(env, timeout)
      decreases timeout - elapsed
    {
      if CancelledBy(env, elapsed) {
        return false, elapsed;
      }
      var connected := env.connects(k);
      if connected {
        return true, elapsed + env.probeTime(k);
      }
      elapsed := elapsed + env.probeTime(k) + CheckInterval;
      k := k + 1;
    }
    return false, elapsed;
  }

  /** The poll is decided by its first iteration that does not continue: it skips every
      iteration before it. */
  lemma {:induction false} PollSkips(env: PollEnv, timeout: int, n: nat)
    requires forall j | 0 <= j < n :: Continues(env, timeout, j)
    ensures Poll(env, timeout) == PollFrom(env, timeout, n)
  {
    if n > 0 {
      PollSkips(env, timeout, n - 1);
    }
  }

  /** If the first `n` attempts fail in time and iteration `n` stops the loop, the poll ends
      as iteration `n` says: ready when its attempt connects, cancelled when cancellation
      was requested before it (so that attempt is never made), timed out otherwise. */
  lemma PollDecidedAt(env: PollEnv, timeout: int, n: nat)
    requires forall j | 0 <= j < n :: Continues(env, timeout, j)
    requires !Continues(env, timeout, n)
    ensures Poll(env, timeout) == Ending(env, timeout, n)
  {
    PollSkips(env, timeout, n);
  }

  /** After cancellation is requested at `c`, the poll ends within one attempt and one sleep:
      no later than `c + CheckInterval + p` when no attempt takes longer than `p` ms. */
  lemma CancellationLatency(env: PollEnv, timeout: int, c: int, p: nat)
    requires env.cancelAt == Some(c) && c >= 0
    requires forall k: nat :: env.probeTime(k) <= p
    ensures Poll(env, timeout).at <= c + CheckInterval + p
  {
    LatencyFrom(env, timeout, c, p, 0);
  }

  lemma {:induction false} LatencyFrom(env: PollEnv, timeout: int, c: int, p: nat, k: nat)
    requires env.cancelAt == Some(c) && c >= 0
    requires forall k: nat :: env.probeTime(k) <= p
    requires StartOf(env, k) <= c + CheckInterval + p
    ensures PollFrom(env, timeout, k).at <= c + CheckInterval + p
    decreases timeout - StartOf(env, k)
  {
    if Continues(env, timeout, k) {
      assert StartOf(env, k) < c;
      LatencyFrom(env, timeout, c, p, k + 1);
    }
  }

  /** A cancellation requested before the poll starts ends it at once, without any attempt. */
  lemma CancelledBeforeStart(env: PollEnv, timeout: int)
    requires CancelledBy(env, 0) && timeout > 0
    ensures Poll(env, timeout) == CancelledAt(0)
  {
  }
}
