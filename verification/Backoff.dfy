/** The reconnect delays of one outage in closed form, and when doubling them fits 64 bits. */
module Backoff {
  import opened Prelude

  function Min(a: int, b: int): int { if a < b then a else b }

  function Pow2(k: nat): nat { if k == 0 then 1 else 2 * Pow2(k - 1) }

  /** next_delay's update of the current delay. */
  function Doubled(current: int, max: int): int { if current < max then Min(current * 2, max) else current }

  /** The delay scheduled at error k, counted from 0, since the last open or start. */
  function Delay(initial: int, max: int, k: nat): int {
    if initial >= max then initial else Min(initial * Pow2(k), max)
  }

  lemma DelayStep(initial: int, max: int, k: nat)
    ensures Delay(initial, max, 0) == initial
    ensures Doubled(Delay(initial, max, k), max) == Delay(initial, max, k + 1)
  {
  }

  lemma {:induction false} GrowsAtLeast(initial: int, k: nat)
    requires initial >= 0
    ensures initial * Pow2(k) >= initial
  {
    if k > 0 {
      GrowsAtLeast(initial, k - 1);
      assert initial * Pow2(k) == 2 * (initial * Pow2(k - 1));
    }
  }

  lemma {:induction false} NegativeBelow(initial: int, k: nat)
    requires initial < 0
    ensures initial * Pow2(k) <= initial
  {
    if k > 0 {
      NegativeBelow(initial, k - 1);
      assert initial * Pow2(k) == 2 * (initial * Pow2(k - 1));
    }
  }

  /** Delays of an outage never fall and stay between the two configured bounds. */
  lemma {:induction false} DelaysRise(initial: int, max: int, j: nat, k: nat)
    requires 0 <= initial <= max && j <= k
    ensures initial <= Delay(initial, max, j) <= Delay(initial, max, k) <= max
    decreases k
  {
    if k > j {
      DelaysRise(initial, max, j, k - 1);
      DelayStep(initial, max, k - 1);
    } else {
      GrowsAtLeast(initial, k);
    }
  }

  /** The number of doublings that take initial to max: ceil(log2(max / initial)). */
  function Doublings(initial: int, max: int): nat
    requires initial >= 1
    decreases max - initial
  {
    if initial >= max then 0 else 1 + Doublings(initial * 2, max)
  }

  lemma {:induction false} DoublingsExact(initial: int, max: int, k: nat)
    requires initial >= 1
    ensures initial * Pow2(k) >= max <==> k >= Doublings(initial, max)
    decreases k
  {
    if initial >= max {
      GrowsAtLeast(initial, k);
    } else if k > 0 {
      DoublingsExact(initial * 2, max, k - 1);
      assert initial * 2 * Pow2(k - 1) == initial * Pow2(k);
    } else {
      assert initial * Pow2(0) == initial;
    }
  }

  /** The maximum is reached at that error and not before. */
  lemma ReachesMaxIff(initial: int, max: int, k: nat)
    requires 1 <= initial <= max
    ensures Delay(initial, max, k) == max <==> k >= Doublings(initial, max)
  {
    DoublingsExact(initial, max, k);
  }

  // ---------------------------------------------------------------- 64 bits

  /** No delay of the outage is doubled beyond the range of int64. */
  ghost predicate NeverOverflows(initial: int, max: int) {
    forall k: nat :: Delay(initial, max, k) < max ==> IsInt64(Delay(initial, max, k) * 2)
  }

  /** The first value of the doubling sequence that is 2^62 or more. */
  function Peak(initial: int): int
    requires initial >= 1
    decreases 0x4000_0000_0000_0000 - initial
  {
    if initial >= 0x4000_0000_0000_0000 then initial else Peak(initial * 2)
  }

  lemma DoubleFirst(initial: int, k: nat)
    requires k > 0
    ensures initial * Pow2(k) == initial * 2 * Pow2(k - 1)
  {
  }

  lemma {:induction false} PeakReached(initial: int) returns (k: nat)
    requires initial >= 1
    ensures Peak(initial) == initial * Pow2(k) && Peak(initial) >= 0x4000_0000_0000_0000
    ensures forall j: nat :: j < k ==> initial * Pow2(j) < 0x4000_0000_0000_0000
    decreases 0x4000_0000_0000_0000 - initial
  {
    if initial >= 0x4000_0000_0000_0000 {
      k := 0;
      assert Pow2(0) == 1;
    } else {
      var rest := PeakReached(initial * 2);
      k := rest + 1;
      DoubleFirst(initial, k);
      forall j: nat | j < k
        ensures initial * Pow2(j) < 0x4000_0000_0000_0000
      {
        if j > 0 {
          DoubleFirst(initial, j);
        } else {
          assert Pow2(0) == 1;
        }
      }
    }
  }

  /**
   * Doubling stays within 64 bits if and only if the maximum is at most the first doubled
   * value from 2^62 on.
   */
  lemma NeverOverflowsIff(initial: int, max: int)
    requires 0 <= initial <= max
    ensures NeverOverflows(initial, max) <==> initial == 0 || max <= Peak(initial)
    ensures max <= 0x4000_0000_0000_0000 ==> NeverOverflows(initial, max)
  {
    if initial > 0 {
      var p := PeakReached(initial);
      forall k: nat
        ensures max <= Peak(initial) && Delay(initial, max, k) < max ==> IsInt64(Delay(initial, max, k) * 2)
      {
        if k >= p {
          PowersRise(initial, p, k);
        }
        DelaysRise(initial, max, 0, k);
      }
      if max > Peak(initial) {
        assert Delay(initial, max, p) == Peak(initial) < max;
        assert !IsInt64(Delay(initial, max, p) * 2);
      }
    } else {
      assert forall k: nat :: Delay(0, max, k) <= 0;
    }
  }

  lemma {:induction false} PowersRise(initial: int, j: nat, k: nat)
    requires initial >= 0 && j <= k
    ensures initial * Pow2(j) <= initial * Pow2(k)
    decreases k
  {
    if k > j {
      PowersRise(initial, j, k - 1);
      assert initial * Pow2(k) == 2 * (initial * Pow2(k - 1));
    }
  }
}
