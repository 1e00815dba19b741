/**
 The retry delay (internal/transport/interceptor.go:133-141): a wrapping int64 shift, a guard, a cap
 and full jitter. Jitter is a real in [0, 1); its rounding in float64 is not part of the model.
 */
module RetryDelay {
  import opened Prelude
  import Backoff

  const DEFAULT_INITIAL := 200_000_000
  const DEFAULT_MAX := 5_000_000_000

  /** Go's `initial << attempt` on int64. */
  function Shift(initial: int, attempt: nat): int {
    Wrap64(initial * Pow2(attempt))
  }

  /** The delay before jitter. */
  function PreJitter(initial: int, maxDelay: int, attempt: nat): int {
    var d := Shift(initial, attempt);
    if d <= 0 || d > maxDelay then maxDelay else d
  }

  /** time.Duration(rng * float64(d)): truncated toward zero. */
  function Jittered(d: int, rng: real): int {
    if d >= 0 then Scaled(d, rng) else -Scaled(-d, rng)
  }

  function Scaled(size: nat, rng: real): int {
    (rng * size as real).Floor
  }

  function Wait(initial: int, maxDelay: int, attempt: nat, rng: real): int {
    Jittered(PreJitter(initial, maxDelay, attempt), rng)
  }

  // ----- wrap-around -----

  /** A product that overflowed and still looks positive is at least 2^attempt, and lost at least 2^64. */
  lemma {:induction false} OverflowLooksLarge(initial: int, attempt: nat)
    requires initial * Pow2(attempt) >= TWO_63 && Shift(initial, attempt) > 0
    ensures Shift(initial, attempt) >= Pow2(attempt)
    ensures initial * Pow2(attempt) >= TWO_64 + Pow2(attempt)
  {
    var product := initial * Pow2(attempt);
    var w := Shift(initial, attempt);
    var q := product / TWO_64;
    assert product == q * TWO_64 + product % TWO_64;
    assert w == product % TWO_64 && q >= 1;
    Backoff.Pow2Values();
    if attempt <= 64 {
      var rest := Pow2(64 - attempt);
      Backoff.Pow2Add(attempt, 64 - attempt);
      assert TWO_64 == Pow2(attempt) * rest;
      Multiple(initial - q * rest, Pow2(attempt), w, initial, q, rest);
    } else {
      Backoff.Pow2Add(attempt - 64, 64);
      MultipleOf64(initial, Pow2(attempt - 64), product);
    }
  }

  lemma {:induction false} Multiple(m: int, p: int, w: int, initial: int, q: int, rest: int)
    requires p >= 1 && w > 0 && m == initial - q * rest
    requires initial * p == q * (p * rest) + w
    ensures w >= p
  {
    assert q * (p * rest) == (q * rest) * p;
    assert w == m * p;
    if m >= 1 {
      Monotone(p, 1, m);
    } else {
      Monotone(p, m, 0);
      assert false;
    }
  }

  lemma {:induction false} MultipleOf64(initial: int, p: int, product: int)
    requires product == initial * (p * TWO_64)
    ensures product % TWO_64 == 0
  {
    assert product == (initial * p) * TWO_64;
  }

  /**
   Exactly when the delay is the promised one, for any settings a caller can give and any attempt. A
   positive initial delay fails only when the shift overflowed into a positive value below the cap; any
   other fails unless the promise itself reaches the cap, because the guard takes it for an overflow.
   */
  lemma {:induction false} ExactlyWhen(initial: int, maxDelay: int, attempt: nat)
    requires IsInt64(initial) && IsInt64(maxDelay)
    ensures PreJitter(initial, maxDelay, attempt) == Doubling(initial, maxDelay, attempt)
            <==> if initial > 0
                 then initial * Pow2(attempt) < TWO_63 || Shift(initial, attempt) <= 0
                      || Shift(initial, attempt) >= maxDelay
                 else initial * Pow2(attempt) >= maxDelay
    ensures initial > 0 ==> PreJitter(initial, maxDelay, attempt) <= Doubling(initial, maxDelay, attempt)
  {
    SignOfProduct(initial, Pow2(attempt));
  }

  lemma {:induction false} SignOfProduct(x: int, p: int)
    requires p > 0
    ensures (x > 0 ==> x * p > 0) && (x <= 0 ==> x * p <= 0)
  {
  }

  /** An initial delay of zero, documented as no delay, waits the whole cap at every attempt. */
  lemma {:induction false} ZeroDelayWaitsTheCap(maxDelay: int, attempt: nat)
    requires 0 < maxDelay < TWO_63
    ensures PreJitter(0, maxDelay, attempt) == maxDelay && Doubling(0, maxDelay, attempt) == 0
  {
  }

  /** With a cap that is not negative, an initial delay that is not positive is exact only if both are zero. */
  lemma {:induction false} NonPositiveExactlyWhen(initial: int, maxDelay: int, attempt: nat)
    requires -TWO_63 <= initial <= 0 <= maxDelay < TWO_63
    ensures PreJitter(initial, maxDelay, attempt) == Doubling(initial, maxDelay, attempt)
            <==> initial == 0 && maxDelay == 0
  {
    ExactlyWhen(initial, maxDelay, attempt);
    if initial < 0 {
      SignOfProduct(-initial, Pow2(attempt));
    }
  }

  /** Settings with initial*max at most 2^64 never meet the bad case, at any attempt. */
  lemma {:induction false} ExactForModestSettings(initial: int, maxDelay: int, attempt: nat)
    requires 0 < initial < TWO_63 && 0 <= maxDelay < TWO_63 && initial * maxDelay <= TWO_64
    ensures PreJitter(initial, maxDelay, attempt) == Doubling(initial, maxDelay, attempt)
  {
    ExactlyWhen(initial, maxDelay, attempt);
    if initial * Pow2(attempt) >= TWO_63 && 0 < Shift(initial, attempt) < maxDelay {
      OverflowLooksLarge(initial, attempt);
      Monotone(initial, Pow2(attempt), maxDelay);
      assert false;
    }
  }

  lemma {:induction false} Monotone(x: int, a: int, b: int)
    requires x > 0 && a <= b
    ensures x * a <= x * b
  {
  }

  /** The default settings are exact: their product is 10^18. */
  lemma {:induction false} DefaultsExact(attempt: nat)
    ensures PreJitter(DEFAULT_INITIAL, DEFAULT_MAX, attempt) == Doubling(DEFAULT_INITIAL, DEFAULT_MAX, attempt)
  {
    ExactForModestSettings(DEFAULT_INITIAL, DEFAULT_MAX, attempt);
  }

  /**
   The bound is nearly tight: for each t, settings whose product exceeds 2^64 by only
   2^(64-t) + 2^t + 1 make the guard miss an overflow, and the delay drops below the promise.
   */
  lemma {:induction false} BoundIsTight(t: nat)
    requires 2 <= t <= 61
    ensures var initial, maxDelay, attempt := Pow2(t) + 1, Pow2(64 - t) + 1, 64 - t;
            && 0 < initial < TWO_63 && 0 < maxDelay < TWO_63
            && initial * maxDelay == TWO_64 + Pow2(64 - t) + Pow2(t) + 1
            && PreJitter(initial, maxDelay, attempt) < Doubling(initial, maxDelay, attempt)
  {
    var a, b := Pow2(t), Pow2(64 - t);
    Backoff.Pow2Values();
    Backoff.Pow2Add(t, 64 - t);
    Pow2Monotone(t, 62);
    Pow2Monotone(64 - t, 62);
    Products(a, b);
    WrapPast(b);
  }

  lemma {:induction false} Products(a: int, b: int)
    ensures (a + 1) * b == a * b + b
    ensures (a + 1) * (b + 1) == a * b + b + a + 1
  {
  }

  lemma {:induction false} WrapPast(b: int)
    requires 0 <= b < TWO_63
    ensures Wrap64(TWO_64 + b) == b
  {
  }

  lemma {:induction false} Pow2Monotone(n: nat, m: nat)
    requires n <= m
    ensures Pow2(n) <= Pow2(m)
  {
    if n < m {
      Pow2Monotone(n, m - 1);
    }
  }

  // ----- jitter and totals -----

  predicate Unit(rng: real) {
    0.0 <= rng < 1.0
  }

  /** Full jitter only shortens a delay; a negative one, which does not wait, stays one. */
  lemma {:induction false} JitterShortens(d: int, rng: real)
    requires Unit(rng)
    ensures if d >= 0 then 0 <= Jittered(d, rng) <= d else d <= Jittered(d, rng) <= 0
    ensures d > 0 ==> Jittered(d, rng) < d
  {
    ScaledShrinks(if d >= 0 then d else -d, rng);
  }

  /**
   The wait itself: where the delay before jitter is the promised one and not negative, the wait is the
   floor of the factor times the promise; a negative delay is jittered like its opposite.
   */
  lemma {:induction false} WaitIs(initial: int, maxDelay: int, attempt: nat, rng: real, promised: int)
    requires promised == Min(initial * Pow2(attempt), maxDelay)
    requires PreJitter(initial, maxDelay, attempt) == Doubling(initial, maxDelay, attempt)
    ensures Wait(initial, maxDelay, attempt, rng)
            == if promised >= 0 then (rng * promised as real).Floor else -((rng * (-promised) as real).Floor)
  {
    JitteredIs(promised, rng);
  }

  lemma {:induction false} JitteredIs(d: int, rng: real)
    ensures Jittered(d, rng) == if d >= 0 then (rng * d as real).Floor else -((rng * (-d) as real).Floor)
  {
  }

  lemma {:induction false} ScaledShrinks(size: nat, rng: real)
    requires Unit(rng)
    ensures 0 <= Scaled(size, rng) <= size && (size > 0 ==> Scaled(size, rng) < size)
  {
    var y := rng * size as real;
    Shrinks(rng, size as real, y);
    Floored(y, size);
  }

  lemma {:induction false} Floored(x: real, d: int)
    requires 0.0 <= x <= d as real
    ensures 0 <= x.Floor <= d && (x < d as real ==> d > 0 ==> x.Floor < d)
  {
  }

  lemma {:induction false} Shrinks(rng: real, x: real, y: real)
    requires 0.0 <= rng < 1.0 && 0.0 <= x && y == rng * x
    ensures 0.0 <= y <= x && (x > 0.0 ==> y < x)
  {
    Scale(rng, x);
    Scale(1.0 - rng, x);
    assert x - y == (1.0 - rng) * x;
  }

  lemma {:induction false} Scale(a: real, x: real)
    requires a >= 0.0 && x >= 0.0
    ensures a * x >= 0.0 && (a > 0.0 && x > 0.0 ==> a * x > 0.0)
  {
  }

  /** The waits before attempts 1 to n of one call. */
  function TotalWait(initial: int, maxDelay: int, rngs: seq<real>): int {
    if rngs == [] then 0
    else
      var n := |rngs| - 1;
      TotalWait(initial, maxDelay, rngs[..n]) + Wait(initial, maxDelay, n, rngs[n])
  }

  /**
   Whatever the settings, a call of n+1 attempts waits at most n times the cap in total (and, with a
   negative cap, for no time at all); with a positive initial delay also at most the geometric sum.
   */
  lemma {:induction false} TotalWaitBound(initial: int, maxDelay: int, rngs: seq<real>)
    requires forall k :: 0 <= k < |rngs| ==> Unit(rngs[k])
    ensures if 0 <= maxDelay then 0 <= TotalWait(initial, maxDelay, rngs) <= |rngs| * maxDelay
            else |rngs| * maxDelay <= TotalWait(initial, maxDelay, rngs) <= 0
    ensures 0 < initial < TWO_63 && 0 <= maxDelay < TWO_63 ==>
              TotalWait(initial, maxDelay, rngs) <= initial * (Pow2(|rngs|) - 1)
  {
    if rngs == [] {
    } else {
      var n := |rngs| - 1;
      var d := PreJitter(initial, maxDelay, n);
      TotalWaitBound(initial, maxDelay, rngs[..n]);
      PreJitterWithinCap(initial, maxDelay, n);
      JitterShortens(d, rngs[n]);
      OneMoreTerm(initial, maxDelay, Pow2(n), n);
      if 0 < initial < TWO_63 && 0 <= maxDelay < TWO_63 {
        ExactlyWhen(initial, maxDelay, n);
      }
    }
  }

  lemma {:induction false} OneMoreTerm(initial: int, maxDelay: int, power: int, n: nat)
    ensures initial * (2 * power - 1) == initial * (power - 1) + initial * power
    ensures (n + 1) * maxDelay == n * maxDelay + maxDelay
  {
  }

  lemma {:induction false} PreJitterWithinCap(initial: int, maxDelay: int, attempt: nat)
    ensures var d := PreJitter(initial, maxDelay, attempt); if 0 <= maxDelay then 0 <= d <= maxDelay else d == maxDelay
  {
  }
}
