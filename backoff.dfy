/**
  Reconnect backoff policy of the chat widget: the delay, in milliseconds,
  that `scheduleReconnect` waits before the next connection attempt.
  The delay starts at BASE_DELAY, doubles with every attempt and is capped
  at MAX_DELAY.
 */
module Backoff {

  const BASE_DELAY: nat := 2000
  const MAX_DELAY: nat := 8000

  /** Two to the power n. */
  function Pow2(n: nat): (p: nat)
    ensures p >= 1
  {
    if n == 0 then 1 else 2 * Pow2(n - 1)
  }

  lemma {:induction false} Pow2Monotone(m: nat, n: nat)
    requires m <= n
    ensures Pow2(m) <= Pow2(n)
  {
    if m < n {
      Pow2Monotone(m, n - 1);
    }
  }

  function Min(a: int, b: int): int {
    if a <= b then a else b
  }

  /** The wait before reconnect attempt number `attempts` (counted from 0). */
  function Delay(attempts: nat): (d: nat)
    ensures BASE_DELAY <= d <= MAX_DELAY
  {
    Min(BASE_DELAY * Pow2(attempts), MAX_DELAY)
  }

  /** The first delays: 2000, 4000, then the cap. */
  lemma DelayTable()
    ensures Delay(0) == 2000 && Delay(1) == 4000 && Delay(2) == 8000 && Delay(3) == 8000
  {
  }

  /** From the third attempt on, the delay is the cap. */
  lemma DelaySaturates(n: nat)
    requires n >= 2
    ensures Delay(n) == MAX_DELAY
  {
    Pow2Monotone(2, n);
  }

  /** Each attempt waits twice as long as the previous one, up to the cap. */
  lemma DelayDoubles(n: nat)
    ensures Delay(n + 1) == Min(2 * Delay(n), MAX_DELAY)
  {
  }

  /** A later attempt never waits less than an earlier one. */
  lemma DelayMonotone(m: nat, n: nat)
    requires m <= n
    ensures Delay(m) <= Delay(n)
  {
    Pow2Monotone(m, n);
  }
}
