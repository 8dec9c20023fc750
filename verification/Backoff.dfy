/** The delay before a retry, and what a job's claims add up to over its whole life. */
module Backoff {
  import opened Settings

  function PowerOfTwo(n: nat): real {
    if n == 0 then 1.0 else 2.0 * PowerOfTwo(n - 1)
  }

  /** The first delay doubled n times. */
  function Doubled(x: real, n: nat): real {
    if n == 0 then x else 2.0 * Doubled(x, n - 1)
  }

  lemma {:induction false} DoubledIsPower(x: real, n: nat)
    ensures Doubled(x, n) == x * PowerOfTwo(n)
    ensures x > 0.0 ==> Doubled(x, n) >= x
  {
    if n > 0 {
      DoubledIsPower(x, n - 1);
      assert x * (2.0 * PowerOfTwo(n - 1)) == 2.0 * (x * PowerOfTwo(n - 1));
    }
  }

  /** The delay scheduled after the given number of failed attempts. */
  function Delay(cfg: Config, attempts: nat): real {
    var raw := Doubled(cfg.retryInitial, if attempts == 0 then 0 else attempts - 1);
    if raw <= cfg.retryMax then raw else cfg.retryMax
  }

  /** The initial delay times two to the number of earlier failures, or the maximum if that is less. */
  function RetryDelay(cfg: Config, failures: nat): real {
    var raw := cfg.retryInitial * PowerOfTwo(failures);
    if raw < cfg.retryMax then raw else cfg.retryMax
  }

  lemma DelayIsRetryDelay(cfg: Config, failures: nat)
    ensures Delay(cfg, failures + 1) == RetryDelay(cfg, failures)
  {
    DoubledIsPower(cfg.retryInitial, failures);
  }

  /** The sum of the first n delays. */
  function DelaySum(cfg: Config, n: nat): real {
    if n == 0 then 0.0 else DelaySum(cfg, n - 1) + Delay(cfg, n)
  }

  lemma DelayIsBounded(cfg: Config, n: nat)
    requires ValidConfig(cfg)
    ensures cfg.retryInitial <= Delay(cfg, n) <= cfg.retryMax
  {
    DoubledIsPower(cfg.retryInitial, if n == 0 then 0 else n - 1);
  }

  lemma DelayGrows(cfg: Config, n: nat)
    requires ValidConfig(cfg)
    ensures Delay(cfg, n) <= Delay(cfg, n + 1)
  {
    DelayIsBounded(cfg, n);
    if n > 0 {
      DoubledIsPower(cfg.retryInitial, n - 1);
      assert Doubled(cfg.retryInitial, n) == 2.0 * Doubled(cfg.retryInitial, n - 1);
    }
  }

  /** Every scheduled delay lies between the initial and the maximal one, and none is shorter than an earlier one. */
  lemma {:induction false} DelaysNeverShrink(cfg: Config, m: nat, n: nat)
    requires ValidConfig(cfg) && m <= n
    ensures cfg.retryInitial <= Delay(cfg, m) <= Delay(cfg, n) <= cfg.retryMax
    decreases n
  {
    DelayIsBounded(cfg, m);
    if m < n {
      DelaysNeverShrink(cfg, m, n - 1);
      DelayGrows(cfg, n - 1);
      DelayIsBounded(cfg, n);
    }
  }

  /** Before the cap is reached the delays are a geometric series. */
  lemma {:induction false} SumBeforeCap(cfg: Config, n: nat)
    requires ValidConfig(cfg)
    requires n == 0 || Doubled(cfg.retryInitial, n - 1) <= cfg.retryMax
    ensures DelaySum(cfg, n) == cfg.retryInitial * PowerOfTwo(n) - cfg.retryInitial
  {
    DoubledIsPower(cfg.retryInitial, n);
    if n > 0 {
      DoubledIsPower(cfg.retryInitial, n - 1);
      if n > 1 {
        DoubledIsPower(cfg.retryInitial, n - 2);
      }
      SumBeforeCap(cfg, n - 1);
    }
  }

  lemma OneMore(k: nat, m: real)
    ensures (k + 1) as real * m == k as real * m + m
  {
  }

  /** From the first capped delay on, every further one adds the maximum. */
  lemma {:induction false} SumAfterCap(cfg: Config, c: nat, n: nat)
    requires ValidConfig(cfg) && c <= n
    requires c == 0 || Doubled(cfg.retryInitial, c - 1) <= cfg.retryMax
    requires Doubled(cfg.retryInitial, c) >= cfg.retryMax
    ensures DelaySum(cfg, n)
         == cfg.retryInitial * PowerOfTwo(c) - cfg.retryInitial + (n - c) as real * cfg.retryMax
    decreases n
  {
    if n == c {
      SumBeforeCap(cfg, n);
    } else {
      SumAfterCap(cfg, c, n - 1);
      assert Delay(cfg, c + 1) == cfg.retryMax;
      DelaysNeverShrink(cfg, c + 1, n);
      OneMore(n - 1 - c, cfg.retryMax);
    }
  }

  /** The claims of a job, in order, keep at least the scheduled delays between them. */
  ghost predicate Spaced(cfg: Config, times: seq<real>) {
    forall k :: 0 < k < |times| ==> times[k] - times[k - 1] >= Delay(cfg, k)
  }

  lemma {:induction false} SpacedSpan(cfg: Config, times: seq<real>, n: nat)
    requires Spaced(cfg, times) && 0 < n <= |times|
    ensures times[n - 1] - times[0] >= DelaySum(cfg, n - 1)
    decreases n
  {
    if n > 1 {
      SpacedSpan(cfg, times, n - 1);
    }
  }
}
