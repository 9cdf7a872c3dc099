/**
 * The reconnect delay of `SocketClient.reconnect`: two to the power of the
 * attempt number (counted after the increment) seconds, capped at 30 s, plus
 * a random jitter of at most 100 ms.
 */
module Backoff {
  const BaseUnit: nat := 1000
  const MaxReconnectDelay: nat := 30000
  /**
   * The jitter: a random fraction of 100 ms. The product lies in [0, 100),
   * and adding it to the base delay in double precision can round up to
   * exactly 100 more, so the model allows the closed range [0, 100].
   */
  const JitterRange: real := 100.0

  function Pow2(n: nat): (r: nat)
    ensures r >= 1
  {
    if n == 0 then 1 else 2 * Pow2(n - 1)
  }

  lemma {:induction false} Pow2Monotone(m: nat, n: nat)
    requires m <= n
    ensures Pow2(m) <= Pow2(n)
  {
    if m < n {
      Pow2Monotone(m, n - 1);
    }
  }

  /** The delay without jitter, in milliseconds. */
  function BaseDelay(attempt: nat): (d: nat)
    ensures BaseUnit <= d <= MaxReconnectDelay
  {
    if Pow2(attempt) * BaseUnit < MaxReconnectDelay then Pow2(attempt) * BaseUnit else MaxReconnectDelay
  }

  /** The full delay handed to `setTimeout`. */
  function ReconnectDelay(attempt: nat, jitter: real): (d: real)
    ensures 0.0 <= jitter <= JitterRange ==>
      BaseDelay(attempt) as real <= d <= BaseDelay(attempt) as real + JitterRange
    ensures 0.0 <= jitter <= JitterRange ==> d <= MaxReconnectDelay as real + JitterRange
  {
    BaseDelay(attempt) as real + jitter
  }

  /** Backoff never shortens as the attempt number grows. */
  lemma BaseDelayMonotone(m: nat, n: nat)
    requires m <= n
    ensures BaseDelay(m) <= BaseDelay(n)
  {
    Pow2Monotone(m, n);
  }

  /** Each attempt doubles the previous delay until the cap takes over. */
  lemma BaseDelayDoubles(n: nat)
    ensures BaseDelay(n + 1) == if 2 * BaseDelay(n) < MaxReconnectDelay then 2 * BaseDelay(n) else MaxReconnectDelay
  {
  }

  /** From the fifth attempt on the delay is the cap (2^5 * 1000 exceeds 30000). */
  lemma BaseDelaySaturates(n: nat)
    requires n >= 5
    ensures BaseDelay(n) == MaxReconnectDelay
  {
    Pow2Monotone(5, n);
  }

  /** Below the fifth attempt the cap is not reached. */
  lemma BaseDelayBelowCap(n: nat)
    requires n < 5
    ensures BaseDelay(n) == Pow2(n) * BaseUnit < MaxReconnectDelay
  {
    Pow2Monotone(n, 4);
  }

  /** The five delays the client can schedule: attempts 1 to 5 after the increment. */
  lemma DelaySchedule()
    ensures [BaseDelay(1), BaseDelay(2), BaseDelay(3), BaseDelay(4), BaseDelay(5)]
         == [2000, 4000, 8000, 16000, 30000]
  {
    BaseDelaySaturates(5);
  }
}
