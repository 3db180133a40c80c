/**
 `retryDelayFor`: exponential backoff with a capped exponent. Every operand is an integer no double rounds:
 a positive integer times a power of two keeps its significand, and a product that overflows loses to the cap.
 */
module RetryDelay {
  const MAX_EXPONENT: nat := 52

  function Min(a: int, b: int): int {
    if a <= b then a else b
  }

  function Pow2(n: nat): nat {
    if n == 0 then 1 else 2 * Pow2(n - 1)
  }

  function DelayFor(base: int, max: int, attempts: nat): int {
    Min(max, base * Pow2(Min(attempts, MAX_EXPONENT)))
  }

  /** The delay as documented, without the cap on the exponent. */
  function Uncapped(base: int, max: int, attempts: nat): int {
    Min(max, base * Pow2(attempts))
  }

  lemma {:induction false} Pow2Monotone(m: nat, n: nat)
    requires m <= n
    ensures 1 <= Pow2(m) <= Pow2(n)
    decreases n
  {
    if m < n {
      Pow2Monotone(m, n - 1);
    } else if n > 0 {
      Pow2Monotone(m - 1, n - 1);
    }
  }

  lemma MulMonotone(base: int, a: int, b: int)
    requires base > 0 && a <= b
    ensures base * a <= base * b
  {
  }

  /** Positive, at most the maximum, and never shorter after more attempts. */
  lemma DelayBoundedMonotone(base: int, max: int, m: nat, n: nat)
    requires base > 0 && max > 0 && m <= n
    ensures 1 <= DelayFor(base, max, m) <= DelayFor(base, max, n) <= max
  {
    var a, b := Min(m, MAX_EXPONENT), Min(n, MAX_EXPONENT);
    Pow2Monotone(a, b);
    MulMonotone(base, Pow2(a), Pow2(b));
    MulMonotone(base, 1, Pow2(a));
  }

  /** The exponent cap is invisible for every number of attempts exactly when the maximum fits under base * 2^52. */
  lemma CapInvisibleIff(base: int, max: int)
    requires base > 0 && max > 0
    ensures max <= base * Pow2(52)
       <==> forall attempts: nat :: DelayFor(base, max, attempts) == Uncapped(base, max, attempts)
  {
    if max <= base * Pow2(MAX_EXPONENT) {
      forall attempts: nat ensures DelayFor(base, max, attempts) == Uncapped(base, max, attempts) {
        if attempts > MAX_EXPONENT {
          Pow2Monotone(MAX_EXPONENT, attempts);
          MulMonotone(base, Pow2(MAX_EXPONENT), Pow2(attempts));
        }
      }
    } else {
      CapVisible(base, max);
    }
  }

  lemma CapVisible(base: int, max: int)
    requires base > 0 && max > base * Pow2(MAX_EXPONENT)
    ensures DelayFor(base, max, MAX_EXPONENT + 1) < Uncapped(base, max, MAX_EXPONENT + 1)
  {
    Pow2Monotone(0, MAX_EXPONENT);
    assert Pow2(MAX_EXPONENT + 1) == 2 * Pow2(MAX_EXPONENT);
    Doubles(base, Pow2(MAX_EXPONENT));
  }

  lemma Doubles(base: int, a: int)
    requires base > 0 && a > 0
    ensures base * a < base * (2 * a)
  {
    assert base * (2 * a) == base * a + base * a;
  }

  /** The delays scheduled after the first `n` failures of an event. */
  function TotalDelay(base: int, max: int, n: nat): int {
    if n == 0 then 0 else TotalDelay(base, max, n - 1) + DelayFor(base, max, n - 1)
  }

  /** An event goes terminal at its `maxAttempts`-th failure, so it waits through at most maxAttempts - 1 delays. */
  lemma {:induction false} TotalDelayBounded(base: int, max: int, maxAttempts: nat)
    requires base > 0 && max > 0 && maxAttempts > 0
    ensures maxAttempts - 1 <= TotalDelay(base, max, maxAttempts - 1) <= (maxAttempts - 1) * max
  {
    if maxAttempts > 1 {
      TotalDelayBounded(base, max, maxAttempts - 1);
      DelayBoundedMonotone(base, max, maxAttempts - 2, maxAttempts - 2);
      assert (maxAttempts - 1) * max == (maxAttempts - 2) * max + max;
    }
  }

  /** The schedule under the default configuration: it doubles up to 32 seconds, then stays at a minute. */
  lemma DefaultSchedule()
    ensures seq(9, n requires 0 <= n < 9 => DelayFor(1_000, 60_000, n))
         == [1_000, 2_000, 4_000, 8_000, 16_000, 32_000, 60_000, 60_000, 60_000]
    ensures TotalDelay(1_000, 60_000, 9) == 243_000
  {
    assert Pow2(4) == 16 && Pow2(8) == 256;
    var delays := seq(9, n requires 0 <= n < 9 => DelayFor(1_000, 60_000, n));
    assert delays[0] == 1_000 && delays[1] == 2_000 && delays[2] == 4_000 && delays[3] == 8_000;
    assert delays[4] == 16_000 && delays[5] == 32_000 && delays[6] == 60_000 && delays[7] == 60_000;
    assert TotalDelay(1_000, 60_000, 4) == 15_000;
  }
}
