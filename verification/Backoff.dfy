/**
 The delay before a task is retried: exponential, capped, with jitter, rounded
 to milliseconds.
 */
module Backoff {
  const BASE: real := 2.0
  const CAP: real := 60.0

  function Pow2(n: nat): (r: nat)
    ensures r >= 1
  {
    if n == 0 then 1 else 2 * Pow2(n - 1)
  }

  /** The longest delay of an attempt; negative attempts count as the first. */
  function MaxDelay(attempt: int): real {
    var uncapped := BASE * Pow2(if attempt < 0 then 0 else attempt) as real;
    if uncapped < CAP then uncapped else CAP
  }

  lemma {:induction false} PowersGrow(n: nat)
    requires n >= 5
    ensures Pow2(n) >= 32
  {
    if n > 5 {
      PowersGrow(n - 1);
    } else {
      assert Pow2(4) == 16 && Pow2(3) == 8 && Pow2(2) == 4 && Pow2(1) == 2;
    }
  }

  /** Two seconds at first, doubled four times, and a minute from then on. */
  lemma DelayTable(attempt: int)
    ensures attempt <= 0 ==> MaxDelay(attempt) == 2.0
    ensures 0 < attempt <= 4 ==> MaxDelay(attempt) == 2.0 * MaxDelay(attempt - 1)
    ensures attempt >= 5 ==> MaxDelay(attempt) == 60.0
  {
    assert Pow2(0) == 1 && Pow2(1) == 2 && Pow2(2) == 4 && Pow2(3) == 8 && Pow2(4) == 16 && Pow2(5) == 32;
    if attempt >= 5 {
      PowersGrow(attempt);
    }
  }

  predicate Uncapped(attempt: nat) {
    BASE * Pow2(attempt) as real <= CAP
  }

  lemma UncappedUpToFour(attempt: nat)
    ensures Uncapped(attempt) <==> attempt <= 4
  {
    assert Pow2(0) == 1 && Pow2(1) == 2 && Pow2(2) == 4 && Pow2(3) == 8 && Pow2(4) == 16;
    if attempt >= 5 {
      PowersGrow(attempt);
    }
  }

  /** `delay` is a number of milliseconds nearest to the drawn value, in seconds. */
  ghost predicate Rounds(drawn: real, delay: real) {
    (delay * 1000.0).Floor as real == delay * 1000.0 && -0.5 <= delay * 1000.0 - drawn * 1000.0 <= 0.5
  }

  /** What an attempt may wait, over all draws and all ways of breaking ties. */
  ghost predicate MayWait(attempt: int, delay: real) {
    exists drawn: real :: MaxDelay(attempt) / 2.0 <= drawn <= MaxDelay(attempt) && Rounds(drawn, delay)
  }

  lemma MaxDelayIsEven(attempt: int) returns (half: nat)
    ensures MaxDelay(attempt) == 2.0 * half as real && half >= 1
  {
    var n := if attempt < 0 then 0 else attempt;
    half := if BASE * Pow2(n) as real < CAP then Pow2(n) else 30;
  }

  /** Rounding never takes a delay out of its bounds. */
  lemma DelayIsBounded(attempt: int, delay: real)
    requires MayWait(attempt, delay)
    ensures MaxDelay(attempt) / 2.0 <= delay <= MaxDelay(attempt) <= CAP
  {
    var half := MaxDelayIsEven(attempt);
    var drawn: real :| MaxDelay(attempt) / 2.0 <= drawn <= MaxDelay(attempt) && Rounds(drawn, delay);
    var ms := (delay * 1000.0).Floor;
    assert 1000.0 * half as real - 0.5 <= ms as real <= 2000.0 * half as real + 0.5;
    assert 1000 * half <= ms <= 2000 * half;
  }

  /** Both ends of the range can be drawn. */
  lemma EndsMayBeWaited(attempt: int)
    ensures MayWait(attempt, MaxDelay(attempt) / 2.0) && MayWait(attempt, MaxDelay(attempt))
  {
    var half := MaxDelayIsEven(attempt);
    var low, high := half as real, 2.0 * half as real;
    assert low * 1000.0 == (1000 * half) as real && high * 1000.0 == (2000 * half) as real;
    assert Rounds(low, low) && Rounds(high, high);
  }

  /** Whatever is drawn, attempt `b` waits at least as long as attempt `a`. */
  ghost predicate NeverShorter(a: int, b: int) {
    forall d, d' | MayWait(a, d) && MayWait(b, d') :: d <= d'
  }

  /** Past the cap, the doubled delay before it was already above half of it. */
  lemma PowersAreIncreasing(attempt: nat)
    requires !Uncapped(attempt + 1)
    ensures BASE * Pow2(attempt) as real > CAP / 2.0
  {
  }

  /**
   A retry waits at least as long as the one before it, whatever is drawn,
   exactly as long as the doubled delay has not met the cap.
   */
  lemma DelaysGrowExactlyWhileUncapped(attempt: nat)
    ensures NeverShorter(attempt, attempt + 1) <==> Uncapped(attempt + 1)
    ensures Uncapped(attempt + 1) <==> attempt + 1 <= 4
  {
    var next := attempt + 1;
    UncappedUpToFour(next);
    if Uncapped(next) {
      forall d, d' | MayWait(attempt, d) && MayWait(next, d') ensures d <= d' {
        DelayIsBounded(attempt, d);
        DelayIsBounded(next, d');
      }
    } else {
      EndsMayBeWaited(attempt);
      EndsMayBeWaited(attempt + 1);
      PowersAreIncreasing(attempt);
      assert MaxDelay(attempt) > MaxDelay(attempt + 1) / 2.0;
    }
  }

  /** The five retries of a task together wait between 31 and 62 seconds. */
  lemma FiveRetriesWait(d0: real, d1: real, d2: real, d3: real, d4: real)
    requires MayWait(0, d0) && MayWait(1, d1) && MayWait(2, d2) && MayWait(3, d3) && MayWait(4, d4)
    ensures 31.0 <= d0 + d1 + d2 + d3 + d4 <= 62.0
  {
    DelayIsBounded(0, d0);
    DelayIsBounded(1, d1);
    DelayIsBounded(2, d2);
    DelayIsBounded(3, d3);
    DelayIsBounded(4, d4);
    assert Pow2(0) == 1 && Pow2(1) == 2 && Pow2(2) == 4 && Pow2(3) == 8 && Pow2(4) == 16;
  }
}
