/** The reconnect backoff of the resumable engine (resumable.go:119-147, 273-286). */
module Backoff {
  import opened Prelude

  /** sleepBackoff's arithmetic: double in int64, then cap. */
  function Next(backoff: int, maxBackoff: int): int {
    var doubled := Wrap64(backoff * 2);
    if doubled > maxBackoff then maxBackoff else doubled
  }

  /** The backoff slept on the k-th sleep since the last completed catch-up, counting from 0. */
  function Sleep(minBackoff: int, maxBackoff: int, k: nat): int {
    if k == 0 then minBackoff else Next(Sleep(minBackoff, maxBackoff, k - 1), maxBackoff)
  }

  lemma {:induction false} SleepIsDoubling(minBackoff: int, maxBackoff: int, k: nat)
    requires 0 < minBackoff <= maxBackoff < TWO_62
    ensures Sleep(minBackoff, maxBackoff, k) == Doubling(minBackoff, maxBackoff, k)
    ensures minBackoff <= Sleep(minBackoff, maxBackoff, k) <= maxBackoff
  {
    if k == 0 {
    } else {
      SleepIsDoubling(minBackoff, maxBackoff, k - 1);
      assert minBackoff * Pow2(k) == 2 * (minBackoff * Pow2(k - 1));
    }
  }

  lemma {:induction false} Pow2Add(a: nat, b: nat)
    ensures Pow2(a + b) == Pow2(a) * Pow2(b)
  {
    if a == 0 {
    } else {
      Pow2Add(a - 1, b);
    }
  }

  lemma {:induction false} Pow2Values()
    ensures Pow2(62) == TWO_62 && Pow2(63) == TWO_63 && Pow2(64) == TWO_64
  {
    assert Pow2(4) == 16;
    Pow2Add(4, 4);
    Pow2Add(8, 8);
    Pow2Add(16, 16);
    Pow2Add(32, 32);
    assert Pow2(64) == 2 * Pow2(63) && Pow2(63) == 2 * Pow2(62);
  }

  lemma {:induction false} DoubledWraps(b: int)
    requires TWO_62 <= b < TWO_63
    ensures Wrap64(b * 2) < 0
  {
    assert b * 2 - TWO_64 < 0;
  }

  /** Doubling a sleep of 2^62 or more wraps to a negative duration. */
  lemma {:induction false} LargeSleepWraps(minBackoff: int, maxBackoff: int, c: nat)
    requires 0 < minBackoff && TWO_62 <= maxBackoff < TWO_63 && minBackoff * Pow2(c) >= TWO_62
    requires Sleep(minBackoff, maxBackoff, c) == Doubling(minBackoff, maxBackoff, c)
    ensures Sleep(minBackoff, maxBackoff, c + 1) < 0 < Doubling(minBackoff, maxBackoff, c + 1)
  {
    var b := Sleep(minBackoff, maxBackoff, c);
    assert b == Min(minBackoff * Pow2(c), maxBackoff);
    DoubledWraps(b);
    assert Sleep(minBackoff, maxBackoff, c + 1) == Next(b, maxBackoff);
    Positive(minBackoff, Pow2(c + 1));
  }

  lemma {:induction false} Positive(x: int, p: int)
    requires x > 0 && p > 0
    ensures x * p > 0
  {
  }

  /** A maximum of 2^62 or more makes some sleep differ from the promise. */
  lemma {:induction false} LargeMaximumFails(minBackoff: int, maxBackoff: int) returns (k: nat)
    requires 0 < minBackoff && TWO_62 <= maxBackoff < TWO_63
    ensures Sleep(minBackoff, maxBackoff, k) != Doubling(minBackoff, maxBackoff, k)
  {
    Pow2Values();
    AtLeastPower(minBackoff, Pow2(62));
    if Sleep(minBackoff, maxBackoff, 62) == Doubling(minBackoff, maxBackoff, 62) {
      LargeSleepWraps(minBackoff, maxBackoff, 62);
      k := 63;
    } else {
      k := 62;
    }
  }

  lemma {:induction false} AtLeastPower(x: int, p: int)
    requires x >= 1 && p >= 0
    ensures x * p >= p
  {
  }

  /**
   Exactly when the sleeps are the promised ones. With a minimum above the maximum the first
   sleep is not capped; with a maximum of 2^62 or more the doubling wraps to a negative duration.
   */
  lemma {:induction false} DoublingExactlyWhen(minBackoff: int, maxBackoff: int)
    requires 0 < minBackoff < TWO_63 && 0 < maxBackoff < TWO_63
    ensures (forall k: nat :: Sleep(minBackoff, maxBackoff, k) == Doubling(minBackoff, maxBackoff, k))
            <==> minBackoff <= maxBackoff < TWO_62
  {
    if minBackoff <= maxBackoff < TWO_62 {
      forall k: nat
        ensures Sleep(minBackoff, maxBackoff, k) == Doubling(minBackoff, maxBackoff, k)
      {
        SleepIsDoubling(minBackoff, maxBackoff, k);
      }
    } else if minBackoff > maxBackoff {
      assert Sleep(minBackoff, maxBackoff, 0) != Doubling(minBackoff, maxBackoff, 0);
    } else {
      var k := LargeMaximumFails(minBackoff, maxBackoff);
    }
  }
}
