/** Capped exponential backoff with jitter, and what the retries of one event add up to. */
module Backoff {
  const BASE := 1_000
  const CAP := 300_000

  function Pow2(n: nat): nat {
    if n == 0 then 1 else 2 * Pow2(n - 1)
  }

  function Min(a: int, b: int): int {
    if a <= b then a else b
  }

  /** The jitter is Math.random() * 250, taken as a parameter. */
  predicate IsJitter(j: real) {
    0.0 <= j < 250.0
  }

  function ComputeBackoffMs(attempts: nat, jitter: real): int {
    var exp := Min(CAP, BASE * Pow2(if attempts <= 10 then attempts else 10));
    (exp as real + jitter).Floor
  }

  lemma Pow2Monotone(m: nat, n: nat)
    requires m <= n
    ensures Pow2(m) <= Pow2(n)
    decreases n
  {
    if m < n {
      Pow2Monotone(m, n - 1);
    }
  }

  lemma Powers()
    ensures Pow2(8) == 256 && Pow2(9) == 512 && Pow2(10) == 1024
  {
    assert Pow2(4) == 16;
    assert Pow2(7) == 128;
  }

  lemma DelayBounds(n: nat, jitter: real)
    requires IsJitter(jitter) && n >= 1
    ensures n <= 8 ==> 1_000 * Pow2(n) <= ComputeBackoffMs(n, jitter) < 1_000 * Pow2(n) + 250
    ensures n > 8 ==> 300_000 <= ComputeBackoffMs(n, jitter) < 300_250
  {
    Powers();
    if n <= 8 {
      Pow2Monotone(n, 8);
    } else {
      Pow2Monotone(9, if n <= 10 then n else 10);
    }
  }

  /** Delays strictly grow up to the eighth attempt, whatever the jitter; after that the cap holds. */
  lemma DelaysGrow(n: nat, m: nat, j: real, k: real)
    requires 1 <= n <= 8 && n < m && IsJitter(j) && IsJitter(k)
    ensures ComputeBackoffMs(n, j) < ComputeBackoffMs(m, k)
  {
    Powers();
    DelayBounds(n, j);
    DelayBounds(m, k);
    Pow2Monotone(n, 8);
    if m <= 8 {
      Pow2Monotone(n + 1, m);
      Pow2Monotone(1, n);
    }
  }

  /** Sum of the delays scheduled before giving up: one after each unavailable attempt but the last. */
  function Budget(jitters: seq<real>): int {
    if jitters == [] then 0
    else Budget(jitters[..|jitters| - 1]) + ComputeBackoffMs(|jitters|, jitters[|jitters| - 1])
  }

  /** The closed form of the budget for M attempts, without jitter. */
  function BudgetFloor(maxAttempts: nat): int {
    if maxAttempts <= 9 then 1_000 * (Pow2(maxAttempts) - 2) else 510_000 + 300_000 * (maxAttempts - 9)
  }

  lemma {:induction false} BackoffBudget(maxAttempts: nat, jitters: seq<real>)
    requires maxAttempts >= 1 && |jitters| == maxAttempts - 1
    requires forall i :: 0 <= i < |jitters| ==> IsJitter(jitters[i])
    ensures BudgetFloor(maxAttempts) <= Budget(jitters) <= BudgetFloor(maxAttempts) + 250 * (maxAttempts - 1)
  {
    if maxAttempts > 1 {
      BackoffBudget(maxAttempts - 1, jitters[..maxAttempts - 2]);
      DelayBounds(maxAttempts - 1, jitters[maxAttempts - 2]);
      Powers();
    } else {
      assert Pow2(1) == 2;
    }
  }

  /** With the default of eight attempts the retries span about 254 seconds, not hours. */
  lemma DefaultBudget(jitters: seq<real>)
    requires |jitters| == 7 && forall i :: 0 <= i < 7 ==> IsJitter(jitters[i])
    ensures 254_000 <= Budget(jitters) <= 255_750
  {
    BackoffBudget(8, jitters);
    Powers();
  }
}
