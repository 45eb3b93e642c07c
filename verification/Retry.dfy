/** The retry back-off of failed certificate operations. */
module Retry {
  import opened Options

  const RETRY_INITIAL: Time := 15 * MINUTE
  const RETRY_MAX: Time := 12 * HOUR
  const TOTAL_TIMEOUT: Time := 72 * HOUR

  function Min(a: int, b: int): int {
    if a < b then a else b
  }

  function Pow2(n: nat): (p: nat)
    ensures p >= 1
  {
    if n == 0 then 1 else 2 * Pow2(n - 1)
  }

  /** The closed form: the n-th consecutive failure waits 15min * 2^(n-1), at most 12h. */
  function RetryBase(failures: nat): Time {
    var n := if failures == 0 then 1 else failures;
    Min(RETRY_INITIAL * Pow2(n - 1), RETRY_MAX)
  }

  /** The doubling loop of the runner computes the closed form for every failure count, plus the jitter. */
  method ComputeRetryDelay(consecutiveFailures: nat, jitter: Time -> Time) returns (total: Time)
    ensures total == RetryBase(consecutiveFailures) + jitter(RetryBase(consecutiveFailures))
    ensures var doublings := if consecutiveFailures == 0 then 0 else consecutiveFailures - 1;
            var delay := Min(15 * MINUTE * Pow2(doublings), 12 * HOUR);
            total == delay + jitter(delay)
  {
    var failures := if consecutiveFailures == 0 then 1 else consecutiveFailures;
    var delay := RETRY_INITIAL;
    var i := 1;
    while i < failures
      invariant 1 <= i <= failures
      invariant delay == RETRY_INITIAL * Pow2(i - 1)
    {
      if delay >= RETRY_MAX {
        Pow2Grows(i - 1, failures - 1);
        delay := RETRY_MAX;
        break;
      }
      delay := delay * 2;
      i := i + 1;
    }
    if delay > RETRY_MAX {
      delay := RETRY_MAX;
    }
    total := delay + jitter(delay);
  }

  lemma {:induction false} Pow2Grows(m: nat, n: nat)
    requires m <= n
    ensures Pow2(m) <= Pow2(n)
    decreases n
  {
    if m < n {
      Pow2Grows(m, n - 1);
    }
  }

  /** The least time that n back-offs in a row take. */
  function Waited(n: nat): Time {
    if n == 0 then 0 else Waited(n - 1) + RetryBase(n)
  }

  lemma {:induction false} WaitedGrows(m: nat, n: nat)
    requires m <= n
    ensures 0 <= Waited(m) <= Waited(n)
    decreases n
  {
    if m < n {
      WaitedGrows(m, n - 1);
    } else if n > 0 {
      WaitedGrows(n - 1, n - 1);
    }
  }

  /** The first back-offs in hours: 1/4, 1/2, 1, 2, 4, 8, then 12 each; eleven of them take 75h45m. */
  lemma ElevenWaits()
    ensures Waited(10) == 63 * HOUR + 45 * MINUTE
    ensures Waited(11) == 75 * HOUR + 45 * MINUTE
  {
    assert Pow2(1) == 2 && Pow2(2) == 4 && Pow2(3) == 8 && Pow2(4) == 16 && Pow2(5) == 32;
    assert Pow2(6) == 64 && Pow2(7) == 128 && Pow2(8) == 256 && Pow2(9) == 512 && Pow2(10) == 1024;
    assert Waited(3) == 105 * MINUTE;
    assert Waited(6) == 15 * HOUR + 45 * MINUTE;
    assert Waited(8) == 39 * HOUR + 45 * MINUTE;
  }

  /** The back-offs of an operation fit in its 72 hours exactly when there are at most ten of them. */
  lemma AtMostTenWaitsFit(n: nat)
    ensures Waited(n) < TOTAL_TIMEOUT <==> n <= 10
  {
    ElevenWaits();
    if n <= 10 {
      WaitedGrows(n, 10);
    } else {
      WaitedGrows(11, n);
    }
  }
}
