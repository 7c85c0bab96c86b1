/** Exponential backoff with jitter, in the 64-bit arithmetic it is computed in. */
module Backoff {

  const TWO_63: int := 0x8000_0000_0000_0000
  const TWO_64: int := 0x1_0000_0000_0000_0000

  /** Delays in nanoseconds. */
  datatype RetryPolicy = RetryPolicy(maxRetries: int, baseDelay: int, maxDelay: int, jitter: bool)

  function Pow2(n: nat): (p: nat)
    ensures p >= 1
  {
    if n == 0 then 1 else 2 * Pow2(n - 1)
  }

  /** Two's complement wrap-around. */
  function Wrap(x: int): (r: int)
    ensures -TWO_63 <= r < TWO_63 && (r - x) % TWO_64 == 0
  {
    var m := x % TWO_64;
    assert (m - x) % TWO_64 == 0 by { SameRemainder(x); }
    if m < TWO_63 then m else
      assert (m - TWO_64 - x) % TWO_64 == 0 by { SameRemainder(x); }
      m - TWO_64
  }

  lemma SameRemainder(x: int)
    ensures (x % TWO_64 - x) % TWO_64 == 0 && (x % TWO_64 - TWO_64 - x) % TWO_64 == 0
  {
    assert x % TWO_64 - x == TWO_64 * -(x / TWO_64);
    assert x % TWO_64 - TWO_64 - x == TWO_64 * (-(x / TWO_64) - 1);
  }

  lemma WrapExactly(x: int)
    ensures Wrap(x) == x <==> -TWO_63 <= x < TWO_63
  {
  }

  /** Converting 2^n to an integer. From 2^63 on the result is left to the implementation: `beyond`. */
  function Factor(n: nat, beyond: int): int { if n < 63 then Pow2(n) else beyond }

  function Uncapped(rp: RetryPolicy, n: nat, beyond: int): int { Wrap(rp.baseDelay * Factor(n, beyond)) }

  function Capped(rp: RetryPolicy, n: nat, beyond: int): int {
    var delay := Uncapped(rp, n, beyond);
    if rp.maxDelay > 0 && delay > rp.maxDelay then rp.maxDelay else delay
  }

  /** The jitter is drawn from this many values; Go's division truncates, so a negative delay has none. */
  function JitterRange(rp: RetryPolicy, delay: int): nat {
    if rp.jitter && delay > 0 then delay / 4 else 0
  }

  predicate Drawn(rp: RetryPolicy, delay: int, j: nat) { j == 0 || j < JitterRange(rp, delay) }

  function Delay(rp: RetryPolicy, n: nat, j: nat, beyond: int): int {
    var delay := Capped(rp, n, beyond);
    if JitterRange(rp, delay) > 0 then Wrap(delay + j) else delay
  }

  method NextRetryAt(rp: RetryPolicy, n: nat, j: nat, beyond: int, now: int) returns (at: int)
    requires Drawn(rp, Capped(rp, n, beyond), j)
    ensures at == now + Delay(rp, n, j, beyond)
  {
    var delay := Wrap(rp.baseDelay * Factor(n, beyond));
    if rp.maxDelay > 0 && delay > rp.maxDelay {
      delay := rp.maxDelay;
    }
    if rp.jitter {
      var range := if delay < 0 then -(-delay / 4) else delay / 4;
      if range > 0 {
        delay := Wrap(delay + j);
      }
    }
    at := now + delay;
  }

  /** The delay the policy means: base times 2^n, at most the maximum. */
  function Nominal(rp: RetryPolicy, n: nat): int {
    var exact := rp.baseDelay * Pow2(n);
    if rp.maxDelay > 0 && exact > rp.maxDelay then rp.maxDelay else exact
  }

  ghost predicate Sensible(rp: RetryPolicy, n: nat) {
    && rp.baseDelay >= 1 && rp.baseDelay < TWO_63 && rp.maxDelay < TWO_63
    && rp.baseDelay * Pow2(n) < TWO_63
  }

  lemma {:induction false} Pow2Sum(a: nat, b: nat)
    ensures Pow2(a + b) == Pow2(a) * Pow2(b)
  {
    if b > 0 {
      Pow2Sum(a, b - 1);
      assert Pow2(a) * (2 * Pow2(b - 1)) == 2 * (Pow2(a) * Pow2(b - 1));
    }
  }

  lemma Pow2Values()
    ensures Pow2(32) == 0x1_0000_0000 && Pow2(34) == 17_179_869_184 && Pow2(63) == TWO_63
  {
    assert Pow2(8) == 256 && Pow2(2) == 4;
    Pow2Sum(8, 8);
    Pow2Sum(16, 16);
    Pow2Sum(32, 2);
    Pow2Sum(32, 32);
    assert Pow2(64) == 2 * Pow2(63);
  }

  lemma {:induction false} Pow2Grows(n: nat)
    ensures n >= 63 ==> Pow2(n) >= TWO_63
  {
    if n > 63 {
      Pow2Grows(n - 1);
    } else if n == 63 {
      Pow2Values();
    }
  }

  lemma Doubles(b: int, n: nat)
    ensures b * Pow2(n + 1) == 2 * (b * Pow2(n))
  {
    assert b * (2 * Pow2(n)) == 2 * (b * Pow2(n));
  }

  lemma NominalReached(rp: RetryPolicy, n: nat, beyond: int)
    requires Sensible(rp, n)
    ensures Capped(rp, n, beyond) == Nominal(rp, n) > 0
  {
    Pow2Grows(n);
    Larger(rp.baseDelay, Pow2(n));
    WrapExactly(rp.baseDelay * Pow2(n));
  }

  lemma Larger(a: int, b: int)
    requires a >= 1 && b >= 1
    ensures a * b >= b && a * b >= a
  {
    assert (a - 1) * b >= 0 && a * (b - 1) >= 0;
  }

  /** Every jitter of the delay before retry `n` fits. */
  predicate JitterFits(rp: RetryPolicy, n: nat) {
    var range := JitterRange(rp, Nominal(rp, n));
    range <= 1 || Nominal(rp, n) + range <= TWO_63
  }

  /** While base times 2^n fits into 64 bits, the delay is between the nominal one and 5/4 of it for
      every jitter exactly when the largest jitter still fits as well. */
  lemma DelayBounds(rp: RetryPolicy, n: nat, beyond: int)
    requires Sensible(rp, n)
    ensures (forall j | Drawn(rp, Capped(rp, n, beyond), j) ::
               Nominal(rp, n) <= Delay(rp, n, j, beyond) && 4 * Delay(rp, n, j, beyond) <= 5 * Nominal(rp, n))
            <==> JitterFits(rp, n)
  {
    NominalReached(rp, n, beyond);
    var d, range := Nominal(rp, n), JitterRange(rp, Nominal(rp, n));
    if range <= 1 || d + range <= TWO_63 {
      forall j | Drawn(rp, d, j) ensures d <= Delay(rp, n, j, beyond) && 4 * Delay(rp, n, j, beyond) <= 5 * d {
        WrapExactly(d + j);
      }
    } else {
      assert Drawn(rp, d, range - 1);
      assert Delay(rp, n, range - 1, beyond) == Wrap(d + (range - 1));
      WrapExactly(d + (range - 1));
      assert Wrap(d + (range - 1)) < TWO_63 <= d + (range - 1);
      WrapsDown(d + (range - 1));
    }
  }

  /** Which delays a retry can draw: the nominal one, and with jitter every value up to a quarter more. */
  lemma DelaysExactly(rp: RetryPolicy, n: nat, beyond: int, v: int)
    requires Sensible(rp, n) && JitterFits(rp, n)
    ensures (exists j: nat :: Drawn(rp, Capped(rp, n, beyond), j) && Delay(rp, n, j, beyond) == v)
            <==> v == Nominal(rp, n) || (rp.jitter && Nominal(rp, n) <= v < Nominal(rp, n) + Nominal(rp, n) / 4)
  {
    NominalReached(rp, n, beyond);
    var d := Nominal(rp, n);
    forall j: nat | Drawn(rp, d, j) ensures Delay(rp, n, j, beyond) == if JitterRange(rp, d) > 0 then d + j else d {
      WrapExactly(d + j);
    }
    assert Drawn(rp, d, 0);
    if rp.jitter && d <= v < d + d / 4 {
      assert Drawn(rp, d, v - d);
    }
  }

  /** Just past the largest value the wrap-around goes negative. */
  lemma WrapsDown(x: int)
    requires TWO_63 <= x < TWO_64
    ensures Wrap(x) == x - TWO_64 < 0
  {
    assert x % TWO_64 == x;
  }

  /** Uncapped delays grow strictly, even from the largest jitter to the smallest. */
  lemma DelaysGrow(rp: RetryPolicy, n: nat, j: nat, j': nat, beyond: int)
    requires Sensible(rp, n + 1) && Nominal(rp, n + 1) == rp.baseDelay * Pow2(n + 1)
    requires Drawn(rp, Capped(rp, n, beyond), j) && Drawn(rp, Capped(rp, n + 1, beyond), j')
    requires 5 * Nominal(rp, n + 1) <= 4 * TWO_63
    ensures Delay(rp, n, j, beyond) < Delay(rp, n + 1, j', beyond)
  {
    Doubles(rp.baseDelay, n);
    Larger(rp.baseDelay, Pow2(n));
    DelayBounds(rp, n, beyond);
    DelayBounds(rp, n + 1, beyond);
    NominalReached(rp, n, beyond);
    NominalReached(rp, n + 1, beyond);
  }

  /** The sum of the delays before retries 1 to `m`. */
  function TotalWait(rp: RetryPolicy, m: nat, jitters: nat -> nat, beyond: int): int {
    if m == 0 then 0 else TotalWait(rp, m - 1, jitters, beyond) + Delay(rp, m, jitters(m), beyond)
  }

  /** All the waiting `m` retries can cost. */
  lemma {:induction false} TotalWaitBound(rp: RetryPolicy, m: nat, jitters: nat -> nat, beyond: int)
    requires Sensible(rp, m) && forall k | 1 <= k <= m :: JitterFits(rp, k)
    requires forall k | 1 <= k <= m :: Drawn(rp, Capped(rp, k, beyond), jitters(k))
    ensures 4 * TotalWait(rp, m, jitters, beyond) <= 5 * (rp.baseDelay * Pow2(m + 1) - 2 * rp.baseDelay)
  {
    Doubles(rp.baseDelay, m);
    if m == 0 {
      assert rp.baseDelay * Pow2(0) == rp.baseDelay;
    } else {
      Doubles(rp.baseDelay, m - 1);
      Larger(rp.baseDelay, Pow2(m - 1));
      TotalWaitBound(rp, m - 1, jitters, beyond);
      DelayBounds(rp, m, beyond);
      assert JitterFits(rp, m);
    }
  }

  lemma HighHalf(x: int)
    ensures Wrap(x) < 0 <==> x % TWO_64 >= TWO_63
  {
  }

  /** When a job is scheduled before now, for every policy and every retry count. Every draw of the
      jitter gives a negative delay exactly when the product, modulo 2^64, is 2^63 or more: the maximum
      does not catch it and there is no jitter to add. Some draw does exactly when that happens or the
      jitter itself can overflow. */
  lemma NegativeExactly(rp: RetryPolicy, n: nat, beyond: int)
    ensures var delay := Capped(rp, n, beyond);
            && ((forall j | Drawn(rp, delay, j) :: Delay(rp, n, j, beyond) < 0)
                <==> (rp.baseDelay * Factor(n, beyond)) % TWO_64 >= TWO_63)
            && ((exists j :: Drawn(rp, delay, j) && Delay(rp, n, j, beyond) < 0)
                <==> (rp.baseDelay * Factor(n, beyond)) % TWO_64 >= TWO_63
                     || (JitterRange(rp, delay) > 1 && delay + JitterRange(rp, delay) > TWO_63))
  {
    var delay := Capped(rp, n, beyond);
    HighHalf(rp.baseDelay * Factor(n, beyond));
    assert Drawn(rp, delay, 0);
    WrapExactly(delay);
    forall j | Drawn(rp, delay, j)
      ensures Delay(rp, n, j, beyond) < 0 <==> delay < 0 || (JitterRange(rp, delay) > 0 && delay + j >= TWO_63)
    {
      if JitterRange(rp, delay) > 0 {
        DelaySign(rp, delay, j);
      }
    }
    if JitterRange(rp, delay) > 1 {
      assert Drawn(rp, delay, JitterRange(rp, delay) - 1);
    }
  }

  lemma DelaySign(rp: RetryPolicy, delay: int, j: nat)
    requires -TWO_63 <= delay < TWO_63 && Drawn(rp, delay, j) && JitterRange(rp, delay) > 0
    ensures Wrap(delay + j) < 0 <==> delay + j >= TWO_63
  {
    WrapExactly(delay + j);
    if delay + j >= TWO_63 {
      WrapsDown(delay + j);
    }
  }

  function DefaultDelays(retries: int, jitter: bool): RetryPolicy {
    RetryPolicy(retries, 1_000_000_000, 300_000_000_000, jitter)
  }

  lemma {:induction false} Pow2Monotone(a: nat, b: nat)
    requires a <= b
    ensures Pow2(a) <= Pow2(b)
  {
    if a < b {
      Pow2Monotone(a, b - 1);
    }
  }

  /** With the default delays the 34th retry is the first to be scheduled before now. */
  lemma DefaultsFailFirstAt34(retries: int, jitter: bool, n: nat, j: nat, beyond: int)
    requires n <= 34 && Drawn(DefaultDelays(retries, jitter), Capped(DefaultDelays(retries, jitter), n, beyond), j)
    ensures Delay(DefaultDelays(retries, jitter), n, j, beyond) < 0 <==> n == 34
  {
    var rp := DefaultDelays(retries, jitter);
    Pow2Values();
    if n < 34 {
      Pow2Monotone(n, 33);
      assert Pow2(34) == 2 * Pow2(33);
      NominalReached(rp, n, beyond);
      DelayBounds(rp, n, beyond);
    } else {
      NegativeExactly(rp, n, beyond);
    }
  }
}
