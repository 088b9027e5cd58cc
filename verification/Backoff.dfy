/** The arithmetic of the connection retry loop. */
module Backoff {
  /** x * 2**n */
  function Doubled(x: real, n: nat): real {
    if n == 0 then x else 2.0 * Doubled(x, n - 1)
  }

  function Min(x: real, y: real): real {
    if x <= y then x else y
  }

  /** The loop's `backoff` before its k-th sleep, k counted from 1. */
  function BackoffAt(b: real, k: nat): real
    requires k >= 1
  {
    if k == 1 then b else Min(2.0 * BackoffAt(b, k - 1), 60.0)
  }

  /** The k-th sleep: `backoff * (2 ** (retries - 1))`. */
  function SleepAt(b: real, k: nat): real
    requires k >= 1
  {
    Doubled(BackoffAt(b, k), k - 1)
  }

  function Sleeps(b: real, n: nat): (s: seq<real>)
    ensures |s| == n
  {
    if n == 0 then [] else Sleeps(b, n - 1) + [SleepAt(b, n)]
  }

  function Total(s: seq<real>): real {
    if s == [] then 0.0 else Total(s[..|s| - 1]) + s[|s| - 1]
  }

  // ---------- Doubling ----------

  lemma Reorder(x: real, p: real)
    ensures 2.0 * (x * p) == x * (2.0 * p)
  {
  }

  lemma {:induction false} DoubledIsProduct(x: real, n: nat)
    ensures Doubled(x, n) == x * Doubled(1.0, n)
  {
    if n > 0 {
      DoubledIsProduct(x, n - 1);
      Reorder(x, Doubled(1.0, n - 1));
    }
  }

  lemma {:induction false} DoubledMonotone(x: real, y: real, n: nat)
    requires x <= y
    ensures Doubled(x, n) <= Doubled(y, n)
  {
    if n > 0 {
      DoubledMonotone(x, y, n - 1);
    }
  }

  lemma {:induction false} DoubledGrows(x: real, n: nat)
    requires 0.0 < x
    ensures Doubled(x, n) >= x && (n > 0 ==> Doubled(x, n) > x)
  {
    if n > 0 {
      DoubledGrows(x, n - 1);
    }
  }

  lemma {:induction false} DoubleInside(x: real, n: nat)
    ensures Doubled(2.0 * x, n) == 2.0 * Doubled(x, n)
  {
    if n > 0 {
      DoubleInside(x, n - 1);
    }
  }

  // ---------- Closed forms ----------

  /**
   * From the second sleep on, whatever the initial value, and from the first on if that is at most 60: the doubled
   * value capped at 60.
   */
  lemma {:induction false} BackoffClosedForm(b: real, k: nat)
    requires k >= 2 || (k == 1 && b <= 60.0)
    ensures BackoffAt(b, k) == Min(Doubled(b, k - 1), 60.0)
  {
    if k > 2 {
      BackoffClosedForm(b, k - 1);
    }
  }

  lemma TotalStep(b: real, n: nat)
    ensures Total(Sleeps(b, n + 1)) == Total(Sleeps(b, n)) + SleepAt(b, n + 1)
  {
    assert Sleeps(b, n + 1)[..n] == Sleeps(b, n);
  }

  /** n sleeps take at most 60 * 2^n - 60 seconds. */
  lemma {:induction false} TotalBound(b: real, n: nat)
    requires 0.0 < b <= 60.0
    ensures Total(Sleeps(b, n)) <= Doubled(60.0, n) - 60.0
  {
    if n > 0 {
      TotalBound(b, n - 1);
      TotalStep(b, n - 1);
      BackoffClosedForm(b, n);
      DoubledMonotone(BackoffAt(b, n), 60.0, n - 1);
    }
  }

  /** While the cap is not reached the sleeps quadruple: n of them take (b * 4^n - b) / 3 seconds. */
  lemma {:induction false} TotalExact(b: real, n: nat)
    requires 0.0 < b && (n >= 1 ==> Doubled(b, n - 1) <= 60.0)
    ensures 3.0 * Total(Sleeps(b, n)) == Doubled(Doubled(b, n), n) - b
  {
    if n > 0 {
      DoubledGrows(b, n - 1);
      if n > 1 {
        DoubledGrows(Doubled(b, n - 2), 1);
        DoubledGrows(b, n - 2);
      }
      BackoffClosedForm(b, n);
      TotalExact(b, n - 1);
      TotalStep(b, n - 1);
      DoubleInside(Doubled(b, n - 1), n - 1);
    }
  }

  /** The same total as a product. */
  lemma TotalExactProduct(b: real, n: nat)
    requires 0.0 < b && (n >= 1 ==> Doubled(b, n - 1) <= 60.0)
    ensures Doubled(b, n) == b * Doubled(1.0, n)
    ensures 3.0 * Total(Sleeps(b, n)) == Doubled(b, n) * Doubled(1.0, n) - b
  {
    TotalExact(b, n);
    DoubledIsProduct(b, n);
    DoubledIsProduct(Doubled(b, n), n);
  }

  /** The documented ceiling of 60 seconds holds for the k-th sleep exactly while b * 4^(k-1) is within it. */
  lemma SleepWithinMinuteIff(b: real, k: nat)
    requires 0.0 < b && k >= 1
    ensures SleepAt(b, k) <= 60.0 <==> Doubled(Doubled(b, k - 1), k - 1) <= 60.0
  {
    if k >= 2 {
      BackoffClosedForm(b, k);
      DoubledGrows(60.0, k - 1);
      if Doubled(b, k - 1) > 60.0 {
        DoubledMonotone(60.0, Doubled(b, k - 1), k - 1);
      }
    }
  }

  /** The default settings already sleep for longer: the fourth sleep lasts 64 seconds. */
  lemma DefaultSleepExceedsMinute()
    ensures SleepAt(1.0, 4) == 64.0
  {
    BackoffClosedForm(1.0, 4);
    assert Doubled(1.0, 3) == 2.0 * Doubled(1.0, 2);
    assert Doubled(8.0, 3) == 2.0 * Doubled(8.0, 2);
  }

  // ---------- Which attempts are made ----------

  /** Outcome of the i-th attempt; attempts not listed fail. */
  predicate Succeeds(outcomes: seq<bool>, i: nat) {
    i < |outcomes| && outcomes[i]
  }

  /** Some attempt that is made succeeds. */
  ghost predicate SomeAttemptSucceeds(outcomes: seq<bool>, maxRetries: int, auto: bool) {
    exists i: nat :: i < maxRetries && (auto || i == 0) && Succeeds(outcomes, i)
  }
}
