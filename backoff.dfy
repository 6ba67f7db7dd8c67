/**
 * The delay slept after a failed iteration. It starts at ten seconds, doubles after
 * every failure, and falls back to ten once the doubled value reaches 5120. Nothing
 * resets it on success, so it depends only on how many failures there have been.
 */
module Backoff {

  const InitialDelay: int := 10
  const WrapLimit: int := 5120

  /** The delay stored after sleeping for `d`. */
  function Next(d: int): (r: int)
    ensures r == 2 * d || r == InitialDelay
    ensures r < WrapLimit
    ensures d > 0 ==> r > 0
  {
    if 2 * d >= WrapLimit then InitialDelay else 2 * d
  }

  /** The delay held after `n` failures, starting from the initial delay. */
  function DelayAfter(n: nat): int {
    if n == 0 then InitialDelay else Next(DelayAfter(n - 1))
  }

  function Pow2(k: nat): nat {
    if k == 0 then 1 else 2 * Pow2(k - 1)
  }

  /** Number of distinct delays before the value wraps back to the initial one. */
  const Period: nat := 9

  lemma {:induction false} Pow2Monotone(i: nat, j: nat)
    requires i <= j
    ensures 1 <= Pow2(i) <= Pow2(j)
  {
    if i < j { Pow2Monotone(i, j - 1); }
    else if i > 0 { Pow2Monotone(i - 1, i - 1); }
  }

  lemma Pow2Bounds(k: nat)
    requires k < Period
    ensures 1 <= Pow2(k) <= 256
    ensures k < Period - 1 ==> Pow2(k + 1) <= 256
    ensures k > 0 ==> Pow2(k) >= 2
  {
    Pow2Monotone(k, 8);
    if k < Period - 1 { Pow2Monotone(k + 1, 8); }
    if k > 0 { Pow2Monotone(1, k); }
    assert Pow2(8) == 256;
  }

  /** After `n` failures the delay is `10 * 2^(n mod 9)`. */
  lemma {:induction false} DelayClosedForm(n: nat)
    ensures DelayAfter(n) == InitialDelay * Pow2(n % Period)
  {
    if n > 0 {
      DelayClosedForm(n - 1);
      var k := (n - 1) % Period;
      var d := InitialDelay * Pow2(k);
      assert DelayAfter(n) == Next(d);
      Pow2Bounds(k);
      ModSuccessor(n - 1);
      if k < Period - 1 {
        assert 2 * d == InitialDelay * Pow2(k + 1) < WrapLimit;
      } else {
        assert 2 * d == WrapLimit by { assert Pow2(8) == 256; }
      }
    }
  }

  lemma ModSuccessor(m: nat)
    ensures m % Period < Period - 1 ==> (m + 1) % Period == m % Period + 1
    ensures m % Period == Period - 1 ==> (m + 1) % Period == 0
  {
  }

  /** Every delay reached is between 10 and 2560 seconds, in particular positive. */
  lemma DelayBounds(n: nat)
    ensures 0 < InitialDelay <= DelayAfter(n) <= 2560
  {
    DelayClosedForm(n);
    Pow2Bounds(n % Period);
  }

  /** Within a run of failures the delay doubles, except on the ninth, which wraps to 10. */
  lemma DelayStep(n: nat)
    ensures (n + 1) % Period != 0 ==> DelayAfter(n + 1) == 2 * DelayAfter(n)
    ensures (n + 1) % Period == 0 ==> DelayAfter(n + 1) == InitialDelay
  {
    DelayClosedForm(n);
    DelayClosedForm(n + 1);
    ModSuccessor(n);
  }

  /** The delay returns to 10 after exactly nine failures, and not before. */
  lemma DelayPeriod(n: nat)
    ensures DelayAfter(n + Period) == DelayAfter(n)
    ensures forall j | 0 < j < Period :: DelayAfter(j) != InitialDelay
  {
    DelayClosedForm(n);
    DelayClosedForm(n + Period);
    assert (n + Period) % Period == n % Period;
    forall j | 0 < j < Period ensures DelayAfter(j) != InitialDelay {
      DelayClosedForm(j);
      Pow2Bounds(j % Period);
    }
  }

  /** The module-global `time_sleep_error` together with `timeout_exception`, which updates it. */
  class ErrorTimer {
    var seconds: int
    ghost var failures: nat

    ghost predicate Valid()
      reads this
    {
      seconds == DelayAfter(failures)
    }

    constructor()
      ensures Valid() && failures == 0 && seconds == InitialDelay
    {
      seconds := InitialDelay;
      failures := 0;
    }

    /** Sleeps for the current delay (returned as `slept`), then doubles it or wraps it to 10. */
    method Timeout() returns (slept: int)
      requires Valid()
      modifies this
      ensures Valid() && failures == old(failures) + 1
      ensures slept == old(seconds) && slept > 0
      ensures seconds == Next(old(seconds))
      ensures InitialDelay <= seconds <= 2560
    {
      DelayBounds(failures);
      slept := seconds;
      seconds := seconds * 2;
      if seconds >= WrapLimit {
        seconds := InitialDelay;
      }
      failures := failures + 1;
      DelayBounds(failures);
    }
  }
}
