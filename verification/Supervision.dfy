/** Restarting a failing loop with bounded exponential backoff. */
module Supervision {
  import opened Options

  /** How one start of the loop ends: cleanly (or cancelled), or with an error. */
  datatype Ending = Clean | Failed

  function Pow2(k: nat): nat { if k == 0 then 1 else 2 * Pow2(k - 1) }

  /** The wait before restart k + 1. */
  function Wait(min: int, max: int, k: nat): int
  {
    if min >= max then min else if min * Pow2(k) < max then min * Pow2(k) else max
  }

  /** How many leading starts fail. */
  function Failures(endings: seq<Ending>): (k: nat)
    ensures k <= |endings| && (forall i :: 0 <= i < k ==> endings[i] == Failed) &&
            (k < |endings| ==> endings[k] != Failed)
  {
    if endings != [] && endings[0] == Failed then 1 + Failures(endings[1..]) else 0
  }

  /** Supervision over the given endings, with shutdown arriving during the wait numbered `abort` if at all:
      it waits once per failure, never after a clean ending, and each wait is the doubled, capped minimum. */
  method RunSupervised(endings: seq<Ending>, min: int, max: int, abort: Option<nat>) returns (waits: seq<int>)
    ensures |waits| == if abort.Some? && abort.value < Failures(endings) then abort.value + 1 else Failures(endings)
    ensures forall k :: 0 <= k < |waits| ==> waits[k] == Wait(min, max, k)
  {
    waits := [];
    var backoff, i := min, 0;
    while i < |endings|
      invariant i <= |endings| && |waits| == i && backoff == Wait(min, max, i) && i <= Failures(endings)
      invariant abort.Some? ==> i <= abort.value
      invariant forall k :: 0 <= k < |waits| ==> waits[k] == Wait(min, max, k)
    {
      if endings[i] == Clean { return; }
      waits := waits + [backoff];
      if abort == Some(i) { return; }
      WaitStep(min, max, i);
      if backoff < max {
        backoff := backoff * 2;
        if backoff > max { backoff := max; }
      }
      i := i + 1;
    }
  }

  lemma WaitStep(min: int, max: int, k: nat)
    ensures Wait(min, max, k + 1) == if Wait(min, max, k) < max
            then (if 2 * Wait(min, max, k) > max then max else 2 * Wait(min, max, k)) else Wait(min, max, k)
  {
    assert min * Pow2(k + 1) == 2 * (min * Pow2(k));
    if min < max && min * Pow2(k) >= max { Doubles(min, max, k); }
  }

  lemma Doubles(min: int, max: int, k: nat)
    requires min < max && min * Pow2(k) >= max
    ensures 2 * (min * Pow2(k)) >= max
  {
    if min <= 0 { NotPositive(min, k); }
  }

  lemma {:induction false} NotPositive(min: int, k: nat)
    requires min <= 0
    ensures min * Pow2(k) <= min
  {
    if k > 0 {
      NotPositive(min, k - 1);
      assert min * Pow2(k) == 2 * (min * Pow2(k - 1));
    }
  }

  lemma {:induction false} ScaledGrows(min: int, k: nat)
    requires 0 < min
    ensures min * Pow2(k) >= min && min * Pow2(k) > k
  {
    if k > 0 {
      ScaledGrows(min, k - 1);
      assert min * Pow2(k) == 2 * (min * Pow2(k - 1));
    }
  }

  /** Waits never exceed the cap exactly when the minimum does not. */
  lemma WaitsAreCappedIff(min: int, max: int)
    ensures (forall k: nat :: Wait(min, max, k) <= max) <==> min <= max
  {
    assert Wait(min, max, 0) <= max <==> min <= max;
  }

  /** Waits never shrink exactly when the minimum is not negative or is at the cap already. */
  lemma WaitsNeverShrinkIff(min: int, max: int)
    ensures (forall k: nat :: Wait(min, max, k) <= Wait(min, max, k + 1)) <==> min >= 0 || min >= max
  {
    if min >= 0 || min >= max {
      forall k: nat ensures Wait(min, max, k) <= Wait(min, max, k + 1) {
        WaitStep(min, max, k);
        if min > 0 { ScaledGrows(min, k); }
      }
    } else {
      assert Pow2(0) == 1 && Pow2(1) == 2;
      assert !(Wait(min, max, 0) <= Wait(min, max, 0 + 1));
    }
  }

  /** The cap is reached exactly from a minimum equal to it, or positive and below it. */
  lemma CapIsReachedIff(min: int, max: int)
    ensures (exists k: nat :: Wait(min, max, k) == max) <==> min == max || 0 < min < max
  {
    if min == max {
      assert Wait(min, max, 0) == max;
    } else if 0 < min < max {
      ScaledGrows(min, max);
      assert Wait(min, max, max) == max;
    } else if min < max {
      forall k: nat ensures Wait(min, max, k) != max { NotPositive(min, k); }
    }
  }

  /** A minimum above the cap is waited in full every time, and a negative one shrinks. */
  lemma UnboundedWaits()
    ensures Wait(2, 1, 0) == 2 && Wait(-1, 1, 0) == -1 && Wait(-1, 1, 1) == -2
  {
    assert Pow2(0) == 1 && Pow2(1) == 2;
  }
}
