/**
 Dialing a broker with exponential backoff (`ConnectionManager::connect_inner`).

 Durations are natural numbers of some unit; the doubling factor saturates at the largest `u32`.
 */
module Backoff {
  import opened Prelude

  const U32_MAX := 0xFFFF_FFFF

  datatype RetryOptions = RetryOptions(minBackoff: nat, maxBackoff: nat, maxRetries: nat)

  /** What one `Connection::new` yields; only a refusal or a time-out is worth another attempt. */
  datatype Attempt = Connected(conn: nat) | RefusedOrTimedOut | OtherIoError(kind: nat) | OtherError(code: nat)

  function Pow2(k: nat): nat {
    if k == 0 then 1 else 2 * Pow2(k - 1)
  }

  /** `2u32.saturating_pow(k)` */
  function SaturatingPow2(k: nat): nat {
    Min(Pow2(k), U32_MAX)
  }

  /** The delay before retry `k`, without jitter. */
  function Base(o: RetryOptions, k: nat): nat {
    Min(o.minBackoff * SaturatingPow2(k), o.maxBackoff)
  }

  function Delay(o: RetryOptions, k: nat, jitter: nat): nat {
    Base(o, k) + o.minBackoff * jitter
  }

  /** Jitter is drawn from 0..10. */
  ghost predicate Drawn(jitters: seq<nat>) {
    forall i :: 0 <= i < |jitters| ==> jitters[i] < 10
  }

  function DelayBound(o: RetryOptions, n: nat): int {
    Min(o.minBackoff * (Pow2(n) - 1), n * o.maxBackoff) + 9 * n * o.minBackoff
  }

  function Delays(o: RetryOptions, jitters: seq<nat>): (d: seq<nat>)
    ensures |d| == |jitters|
    ensures forall k :: 0 <= k < |d| ==> d[k] == Delay(o, k, jitters[k])
  {
    seq(|jitters|, k requires 0 <= k < |jitters| => Delay(o, k, jitters[k]))
  }

  lemma DelaysSnoc(o: RetryOptions, jitters: seq<nat>, k: nat)
    requires k < |jitters|
    ensures Delays(o, jitters[..k + 1]) == Delays(o, jitters[..k]) + [Delay(o, k, jitters[k])]
  {
  }

  lemma MulMonotone(a: nat, x: nat, y: nat)
    requires x <= y
    ensures a * x <= a * y
  {
  }

  lemma LastDelay(o: RetryOptions, jitters: seq<nat>)
    requires jitters != [] && Drawn(jitters)
    ensures Sum(Delays(o, jitters)) == Sum(Delays(o, Front(jitters))) + Delay(o, |jitters| - 1, Last(jitters))
    ensures Delay(o, |jitters| - 1, Last(jitters)) <= Base(o, |jitters| - 1) + 9 * o.minBackoff
  {
    var d := Delays(o, jitters);
    assert d == Delays(o, Front(jitters)) + [Delay(o, |jitters| - 1, Last(jitters))];
    SumAppend(Delays(o, Front(jitters)), [Delay(o, |jitters| - 1, Last(jitters))]);
    MulMonotone(o.minBackoff, Last(jitters), 9);
  }

  lemma PowStep(a: nat, p: nat, n: nat)
    ensures (a * (p - 1) + 9 * n * a) + (a * p + 9 * a) == a * (2 * p - 1) + 9 * (n + 1) * a
  {
  }

  lemma {:induction false} TotalDelayPow(o: RetryOptions, jitters: seq<nat>)
    requires Drawn(jitters)
    ensures Sum(Delays(o, jitters)) <= o.minBackoff * (Pow2(|jitters|) - 1) + 9 * |jitters| * o.minBackoff
  {
    if jitters == [] {
    } else {
      var n := |jitters| - 1;
      TotalDelayPow(o, Front(jitters));
      LastDelay(o, jitters);
      MulMonotone(o.minBackoff, SaturatingPow2(n), Pow2(n));
      PowStep(o.minBackoff, Pow2(n), n);
    }
  }

  lemma MaxStep(a: nat, b: nat, n: nat)
    ensures (n * b + 9 * n * a) + (b + 9 * a) == (n + 1) * b + 9 * (n + 1) * a
  {
  }

  lemma {:induction false} TotalDelayMax(o: RetryOptions, jitters: seq<nat>)
    requires Drawn(jitters)
    ensures Sum(Delays(o, jitters)) <= |jitters| * o.maxBackoff + 9 * |jitters| * o.minBackoff
  {
    if jitters == [] {
    } else {
      TotalDelayMax(o, Front(jitters));
      LastDelay(o, jitters);
      MaxStep(o.minBackoff, o.maxBackoff, |jitters| - 1);
    }
  }

  /** All the time spent waiting over n retries, saturation and jitter included. */
  lemma TotalDelayBound(o: RetryOptions, jitters: seq<nat>)
    requires Drawn(jitters)
    ensures Sum(Delays(o, jitters)) <= DelayBound(o, |jitters|)
  {
    TotalDelayPow(o, jitters);
    TotalDelayMax(o, jitters);
  }

  method NextBackoff(o: RetryOptions, currentRetries: nat, jitter: nat) returns (d: nat)
    ensures d == Delay(o, currentRetries, jitter)
  {
    d := Min(o.minBackoff * SaturatingPow2(currentRetries), o.maxBackoff) + o.minBackoff * jitter;
  }

  /**
   The connection loop.  `outcomes` and `jitters` are what the network and the random generator
   would yield; the loop looks at as many as it needs.
   */
  method Dial(o: RetryOptions, outcomes: seq<Attempt>, jitters: seq<nat>)
    returns (result: Attempt, attempts: nat, delays: seq<nat>)
    requires |outcomes| > o.maxRetries && |jitters| >= o.maxRetries && Drawn(jitters)
    ensures 1 <= attempts <= o.maxRetries + 1
    ensures result == outcomes[attempts - 1]
    ensures forall i :: 0 <= i < attempts - 1 ==> outcomes[i] == RefusedOrTimedOut
    ensures result == RefusedOrTimedOut ==> attempts == o.maxRetries + 1
    ensures delays == Delays(o, jitters[..attempts - 1])
    ensures forall k :: 0 <= k < attempts - 1 ==> delays[k] - Base(o, k) == o.minBackoff * jitters[k]
    ensures Sum(delays) <= DelayBound(o, attempts - 1)
  {
    delays := [];
    var currentRetries := 0;
    while true
      invariant 0 <= currentRetries <= o.maxRetries
      invariant forall i :: 0 <= i < currentRetries ==> outcomes[i] == RefusedOrTimedOut
      invariant delays == Delays(o, jitters[..currentRetries])
      decreases o.maxRetries - currentRetries
    {
      var outcome := outcomes[currentRetries];
      if outcome != RefusedOrTimedOut || currentRetries == o.maxRetries {
        TotalDelayBound(o, jitters[..currentRetries]);
        return outcome, currentRetries + 1, delays;
      }
      var jitter := jitters[currentRetries];
      var currentBackoff := NextBackoff(o, currentRetries, jitter);
      DelaysSnoc(o, jitters, currentRetries);
      delays := delays + [currentBackoff];
      currentRetries := currentRetries + 1;
    }
  }

  lemma {:induction false} Pow2Monotone(j: nat, k: nat)
    requires j <= k
    ensures Pow2(j) <= Pow2(k)
    decreases k
  {
    if j == k {
    } else {
      Pow2Monotone(j, k - 1);
    }
  }

  /**
   The base delay starts at the minimum and doubles with each retry until it meets the maximum, or
   until the factor saturates.
   */
  lemma BaseDoubles(o: RetryOptions, k: nat)
    ensures Base(o, 0) == Min(o.minBackoff, o.maxBackoff)
    ensures Pow2(k + 1) <= U32_MAX ==> Base(o, k + 1) == Min(2 * Base(o, k), o.maxBackoff)
    ensures Pow2(k) >= U32_MAX ==> Base(o, k) == Min(o.minBackoff * U32_MAX, o.maxBackoff)
  {
    assert Pow2(k + 1) == 2 * Pow2(k);
    assert o.minBackoff * (2 * Pow2(k)) == 2 * (o.minBackoff * Pow2(k));
  }

  /** Base delays never decrease and never exceed the maximum. */
  lemma BaseGrowsUpToMax(o: RetryOptions, j: nat, k: nat)
    requires j <= k
    ensures Base(o, j) <= Base(o, k) <= o.maxBackoff
  {
    Pow2Monotone(j, k);
    MulMonotone(o.minBackoff, SaturatingPow2(j), SaturatingPow2(k));
  }
}
