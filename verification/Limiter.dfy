// The adaptive (additive increase, multiplicative decrease) concurrency limiter.

module Limiting {
  import opened Common

  datatype AdaptiveConfig = AdaptiveConfig(
    enabled: bool,
    maxConcurrency: nat,
    minConcurrency: nat,
    slowThreshold: nat)

  // The default slow threshold, in milliseconds.
  const SLOW_THRESHOLD: nat := 5000

  // The only way the import builds its configuration.
  function NewConfig(enabled: bool, workers: nat): AdaptiveConfig {
    AdaptiveConfig(enabled, Max(workers, 1), 1, SLOW_THRESHOLD)
  }

  // What the limiter's mutex guards. The congestion timestamp is replaced by a
  // boolean argument saying whether the quiet period has elapsed.
  datatype Inner = Inner(
    limit: nat,
    inFlight: nat,
    minLimitSeen: nat,
    rateLimited429: nat,
    rateLimited503: nat,
    slowSends: nat,
    rttSum: nat,
    rttCount: nat)

  function Start(config: AdaptiveConfig): Inner {
    var start := Max(Max(config.maxConcurrency, config.minConcurrency), 1);
    Inner(start, 0, start, 0, 0, 0, 0, 0)
  }

  function Throttle(config: AdaptiveConfig, inner: Inner): Inner {
    if !config.enabled then inner
    else
      var reduced := Max(inner.limit / 2, config.minConcurrency);
      inner.(limit := reduced, minLimitSeen := Min(inner.minLimitSeen, reduced))
  }

  predicate Recovers(config: AdaptiveConfig, inner: Inner, quiet: bool) {
    config.enabled && inner.limit < config.maxConcurrency && quiet
  }

  function Recover(config: AdaptiveConfig, inner: Inner, quiet: bool): Inner {
    if Recovers(config, inner, quiet) then inner.(limit := inner.limit + 1) else inner
  }

  function Freed(inner: Inner): Inner {
    inner.(inFlight := if inner.inFlight == 0 then 0 else inner.inFlight - 1)
  }

  predicate Slow(config: AdaptiveConfig, rtt: nat) { config.enabled && rtt >= config.slowThreshold }

  // The guarded part of `record_success`.
  function OnSuccess(config: AdaptiveConfig, inner: Inner, rtt: nat, quiet: bool): Inner {
    var timed := Freed(inner).(rttSum := inner.rttSum + rtt, rttCount := inner.rttCount + 1);
    if Slow(config, rtt) then Throttle(config, timed.(slowSends := inner.slowSends + 1))
    else Recover(config, timed, quiet)
  }

  // The guarded part of `record_error`.
  function OnError(config: AdaptiveConfig, inner: Inner, status: Option<nat>): Inner {
    match status
    case Some(429) => Throttle(config, Freed(inner).(rateLimited429 := inner.rateLimited429 + 1))
    case Some(s) =>
      if 502 <= s <= 504 then Throttle(config, Freed(inner).(rateLimited503 := inner.rateLimited503 + 1))
      else Freed(inner)
    case None => Freed(inner)
  }

  // --- bounds that every outcome keeps -------------------------------------------

  predicate ProperConfig(config: AdaptiveConfig) {
    1 <= config.minConcurrency <= config.maxConcurrency
  }

  predicate Bounded(config: AdaptiveConfig, inner: Inner) {
    && config.minConcurrency <= inner.minLimitSeen <= inner.limit <= config.maxConcurrency
    && (!config.enabled ==> inner.limit == config.maxConcurrency)
  }

  lemma StartBounded(config: AdaptiveConfig)
    requires ProperConfig(config)
    ensures Bounded(config, Start(config)) && Start(config).inFlight == 0
  {
  }

  // Whatever a send's outcome, the limit stays between the floor and the ceiling,
  // the recorded minimum stays a lower bound, exactly one slot is returned, and the
  // limit moves by halving or by one.
  lemma OutcomesKeepBounds(config: AdaptiveConfig, inner: Inner, rtt: nat, quiet: bool, status: Option<nat>)
    requires ProperConfig(config) && Bounded(config, inner) && inner.inFlight >= 1
    ensures var s := OnSuccess(config, inner, rtt, quiet);
            && Bounded(config, s) && s.inFlight == inner.inFlight - 1
            && s.limit in {inner.limit, inner.limit + 1, Max(inner.limit / 2, config.minConcurrency)}
            && (s.limit > inner.limit ==> Recovers(config, inner, quiet) && !Slow(config, rtt))
    ensures var e := OnError(config, inner, status);
            && Bounded(config, e) && e.inFlight == inner.inFlight - 1
            && e.limit in {inner.limit, Max(inner.limit / 2, config.minConcurrency)}
  {
  }

  function Pow2(k: nat): (p: nat)
    ensures p >= 1
  {
    if k == 0 then 1 else 2 * Pow2(k - 1)
  }

  function Throttled(config: AdaptiveConfig, inner: Inner, k: nat): Inner
    decreases k
  {
    if k == 0 then inner else Throttled(config, Throttle(config, inner), k - 1)
  }

  function Doubled(x: nat, k: nat): nat { if k == 0 then x else 2 * Doubled(x, k - 1) }

  lemma {:induction false} DoubledIsPower(x: nat, k: nat)
    ensures Doubled(x, k) == x * Pow2(k)
  {
    if k > 0 {
      DoubledIsPower(x, k - 1);
      Twice(x, Pow2(k - 1));
    }
  }

  lemma Twice(x: nat, p: nat)
    ensures 2 * (x * p) == x * (2 * p)
  {
  }

  // One signal halves the limit or brings it to the floor.
  lemma OneThrottle(config: AdaptiveConfig, inner: Inner)
    requires ProperConfig(config) && config.enabled && Bounded(config, inner)
    ensures var next := Throttle(config, inner);
            && Bounded(config, next) && next.limit <= inner.limit
            && (next.limit == config.minConcurrency || 2 * next.limit <= inner.limit)
  {
  }

  lemma {:induction false} ThrottledHalves(config: AdaptiveConfig, inner: Inner, k: nat)
    requires ProperConfig(config) && config.enabled && Bounded(config, inner)
    ensures var limit := Throttled(config, inner, k).limit;
            && config.minConcurrency <= limit <= inner.limit
            && (limit == config.minConcurrency || Doubled(limit, k) <= inner.limit)
    decreases k
  {
    if k > 0 {
      OneThrottle(config, inner);
      ThrottledHalves(config, Throttle(config, inner), k - 1);
    }
  }

  // Multiplicative decrease: `k` congestion signals in a row divide the limit by
  // at least two to the `k`, unless it has already reached the floor.
  lemma RepeatedThrottle(config: AdaptiveConfig, inner: Inner, k: nat)
    requires ProperConfig(config) && config.enabled && Bounded(config, inner)
    ensures var limit := Throttled(config, inner, k).limit;
            && config.minConcurrency <= limit <= inner.limit
            && (limit == config.minConcurrency || limit * Pow2(k) <= inner.limit)
  {
    ThrottledHalves(config, inner, k);
    DoubledIsPower(Throttled(config, inner, k).limit, k);
  }

  lemma Grow(x: nat, p: nat)
    requires p >= 1
    ensures x * p >= x
  {
  }

  // --- the limiter as code ----------------------------------------------------------

  class AdaptiveLimiter {
    const config: AdaptiveConfig
    var inner: Inner
    // How many times `notify_waiters` has run; a waiter created at an earlier
    // count has been woken.
    var epoch: nat

    constructor (config: AdaptiveConfig)
      ensures this.config == config && inner == Start(config) && epoch == 0
    {
      this.config := config;
      var start := Max(Max(config.maxConcurrency, config.minConcurrency), 1);
      inner := Inner(start, 0, start, 0, 0, 0, 0, 0);
      epoch := 0;
    }

    // The guarded check inside `acquire`.
    method TryAcquire() returns (claimed: bool)
      modifies this`inner
      ensures claimed <==> old(inner.inFlight < inner.limit)
      ensures inner == if claimed then old(inner).(inFlight := old(inner).inFlight + 1) else old(inner)
    {
      claimed := inner.inFlight < inner.limit;
      if claimed { inner := inner.(inFlight := inner.inFlight + 1); }
    }

    method ThrottleNow()
      modifies this`inner
      ensures inner == Throttle(config, old(inner))
    {
      if !config.enabled { return; }
      var reduced := Max(inner.limit / 2, config.minConcurrency);
      inner := inner.(limit := reduced);
      inner := inner.(minLimitSeen := Min(inner.minLimitSeen, reduced));
    }

    method MaybeRecover(quiet: bool)
      modifies this`inner, this`epoch
      ensures inner == Recover(config, old(inner), quiet)
      ensures epoch == old(epoch) + if Recovers(config, old(inner), quiet) then 1 else 0
    {
      if !config.enabled || inner.limit >= config.maxConcurrency { return; }
      if quiet {
        inner := inner.(limit := inner.limit + 1);
        epoch := epoch + 1;
      }
    }

    // Releases a slot after a successful send, waking waiters afterwards.
    method RecordSuccess(rtt: nat, quiet: bool)
      modifies this`inner, this`epoch
      ensures inner == OnSuccess(config, old(inner), rtt, quiet)
      ensures epoch > old(epoch)
    {
      inner := inner.(inFlight := if inner.inFlight == 0 then 0 else inner.inFlight - 1);
      inner := inner.(rttSum := inner.rttSum + rtt, rttCount := inner.rttCount + 1);
      if config.enabled && rtt >= config.slowThreshold {
        inner := inner.(slowSends := inner.slowSends + 1);
        ThrottleNow();
      } else {
        MaybeRecover(quiet);
      }
      epoch := epoch + 1;
    }

    // Releases a slot after a failed send, waking waiters afterwards.
    method RecordError(status: Option<nat>)
      modifies this`inner, this`epoch
      ensures inner == OnError(config, old(inner), status)
      ensures epoch == old(epoch) + 1
    {
      inner := inner.(inFlight := if inner.inFlight == 0 then 0 else inner.inFlight - 1);
      if status.Some? {
        if status.value == 429 {
          inner := inner.(rateLimited429 := inner.rateLimited429 + 1);
          ThrottleNow();
        } else if 502 <= status.value <= 504 {
          inner := inner.(rateLimited503 := inner.rateLimited503 + 1);
          ThrottleNow();
        }
      }
      epoch := epoch + 1;
    }
  }
}
