/** Reconnect back-off of the TCP side: the delay constants and the growth rule
    applied after every failed connection attempt. Seconds are `real`, which is
    exact; every value the schedule reaches (5 * 1.5^n, capped at 60) is a
    dyadic rational that a double also holds exactly. */
module Backoff {

  /** Delay before a reconnect, and the value the back-off resets to on success. */
  const RECONNECT_DELAY: real := 5.0
  /** Factor applied to the delay after each failed attempt. */
  const BACKOFF_FACTOR: real := 1.5
  /** Upper bound of the delay. */
  const MAX_BACKOFF_DELAY: real := 60.0

  /** Python's `min` on two numbers. */
  function Min(a: real, b: real): real {
    if b < a then b else a
  }

  /** The delay an invariant-respecting back-off may take. */
  predicate InRange(delay: real) {
    RECONNECT_DELAY <= delay <= MAX_BACKOFF_DELAY
  }

  /** The delay after one more failed attempt: `min(delay * BACKOFF_FACTOR, MAX_BACKOFF_DELAY)`. */
  function Grow(delay: real): (r: real)
    ensures r <= MAX_BACKOFF_DELAY
    ensures InRange(delay) ==> InRange(r) && delay <= r
    ensures 0.0 < delay ==> 0.0 < r
    ensures 0.0 < delay && r < MAX_BACKOFF_DELAY ==> delay < r
  {
    Min(delay * BACKOFF_FACTOR, MAX_BACKOFF_DELAY)
  }

  /** The delay after `n` consecutive failed attempts starting from `delay`. */
  function AfterFailures(delay: real, n: nat): real
    decreases n
  {
    if n == 0 then delay else AfterFailures(Grow(delay), n - 1)
  }

  /** `b` raised to the power `n`. */
  function Power(b: real, n: nat): real {
    if n == 0 then 1.0 else b * Power(b, n - 1)
  }

  /** The back-off never leaves [RECONNECT_DELAY, MAX_BACKOFF_DELAY], however many attempts fail. */
  lemma {:induction false} AfterFailuresInRange(delay: real, n: nat)
    requires InRange(delay)
    decreases n
    ensures InRange(AfterFailures(delay, n))
    ensures delay <= AfterFailures(delay, n)
  {
    if n > 0 {
      AfterFailuresInRange(Grow(delay), n - 1);
    }
  }

  /** The delay after `n` failures if there were no cap: `delay * BACKOFF_FACTOR^n`. */
  function Uncapped(delay: real, n: nat): real
    decreases n
  {
    if n == 0 then delay else Uncapped(delay * BACKOFF_FACTOR, n - 1)
  }

  lemma {:induction false} UncappedGrows(delay: real, n: nat)
    requires 0.0 <= delay
    decreases n
    ensures delay <= Uncapped(delay, n)
  {
    if n > 0 {
      var k: nat := n - 1;
      UncappedGrows(delay * BACKOFF_FACTOR, k);
      assert Uncapped(delay, n) == Uncapped(delay * BACKOFF_FACTOR, k);
    }
  }

  /** `Uncapped` is the power form `delay * 1.5^n`. */
  lemma {:induction false} UncappedIsPower(delay: real, n: nat)
    decreases n
    ensures Uncapped(delay, n) == delay * Power(BACKOFF_FACTOR, n)
  {
    if n > 0 {
      var k: nat := n - 1;
      UncappedIsPower(delay * BACKOFF_FACTOR, k);
      assert Uncapped(delay, n) == Uncapped(delay * BACKOFF_FACTOR, k);
      assert Power(BACKOFF_FACTOR, n) == BACKOFF_FACTOR * Power(BACKOFF_FACTOR, k);
      Regroup(delay, BACKOFF_FACTOR, Power(BACKOFF_FACTOR, k));
    }
  }

  lemma Regroup(a: real, b: real, c: real)
    ensures (a * b) * c == a * (b * c)
  {
  }

  /** Closed form: after `n` failures the delay is the uncapped product, capped once at the end. */
  lemma {:induction false} AfterFailuresCapped(delay: real, n: nat)
    requires 0.0 < delay <= MAX_BACKOFF_DELAY
    decreases n
    ensures AfterFailures(delay, n) == Min(Uncapped(delay, n), MAX_BACKOFF_DELAY)
  {
    if n > 0 {
      var k: nat := n - 1;
      var y := delay * BACKOFF_FACTOR;
      assert AfterFailures(delay, n) == AfterFailures(Grow(delay), k);
      assert Uncapped(delay, n) == Uncapped(y, k);
      AfterFailuresCapped(Grow(delay), k);
      if MAX_BACKOFF_DELAY < y {
        assert Grow(delay) == MAX_BACKOFF_DELAY;
        UncappedGrows(MAX_BACKOFF_DELAY, k);
        UncappedGrows(y, k);
      } else {
        assert Grow(delay) == y;
      }
    }
  }

  /** The delay after `n` failures is `min(delay * 1.5^n, 60)`. */
  lemma AfterFailuresClosedForm(delay: real, n: nat)
    requires 0.0 < delay <= MAX_BACKOFF_DELAY
    ensures AfterFailures(delay, n) == Min(delay * Power(BACKOFF_FACTOR, n), MAX_BACKOFF_DELAY)
  {
    AfterFailuresCapped(delay, n);
    UncappedIsPower(delay, n);
  }

  /** From the initial delay the schedule is 5, 7.5, 11.25, 16.875, 25.3125,
      37.96875, 56.953125 and then 60 for the seventh failure onwards. */
  lemma {:induction false} InitialSchedule(n: nat)
    ensures n == 0 ==> AfterFailures(RECONNECT_DELAY, n) == 5.0
    ensures n == 1 ==> AfterFailures(RECONNECT_DELAY, n) == 7.5
    ensures n == 2 ==> AfterFailures(RECONNECT_DELAY, n) == 11.25
    ensures n == 3 ==> AfterFailures(RECONNECT_DELAY, n) == 16.875
    ensures n == 4 ==> AfterFailures(RECONNECT_DELAY, n) == 25.3125
    ensures n == 5 ==> AfterFailures(RECONNECT_DELAY, n) == 37.96875
    ensures n == 6 ==> AfterFailures(RECONNECT_DELAY, n) == 56.953125
    ensures n >= 7 ==> AfterFailures(RECONNECT_DELAY, n) == MAX_BACKOFF_DELAY
  {
    var d6 := 56.953125;
    assert AfterFailures(RECONNECT_DELAY, 6) == d6 by {
      assert AfterFailures(d6, 0) == d6;
      assert AfterFailures(37.96875, 1) == d6;
      assert AfterFailures(25.3125, 2) == d6;
      assert AfterFailures(16.875, 3) == d6;
      assert AfterFailures(11.25, 4) == d6;
      assert AfterFailures(7.5, 5) == d6;
    }
    if n >= 7 {
      SaturatedStays(n - 7);
      assert AfterFailures(MAX_BACKOFF_DELAY, n - 7) == MAX_BACKOFF_DELAY;
      assert AfterFailures(d6, n - 6) == AfterFailures(MAX_BACKOFF_DELAY, n - 7);
      SplitFailures(RECONNECT_DELAY, 6, n - 6);
    } else if n == 5 {
      assert AfterFailures(37.96875, 0) == 37.96875;
      assert AfterFailures(25.3125, 1) == 37.96875;
      assert AfterFailures(16.875, 2) == 37.96875;
      assert AfterFailures(11.25, 3) == 37.96875;
      assert AfterFailures(7.5, 4) == 37.96875;
    } else if n == 4 {
      assert AfterFailures(25.3125, 0) == 25.3125;
      assert AfterFailures(16.875, 1) == 25.3125;
      assert AfterFailures(11.25, 2) == 25.3125;
      assert AfterFailures(7.5, 3) == 25.3125;
    } else if n == 3 {
      assert AfterFailures(16.875, 0) == 16.875;
      assert AfterFailures(11.25, 1) == 16.875;
      assert AfterFailures(7.5, 2) == 16.875;
    } else if n == 2 {
      assert AfterFailures(11.25, 0) == 11.25;
      assert AfterFailures(7.5, 1) == 11.25;
    } else if n == 1 {
      assert AfterFailures(7.5, 0) == 7.5;
    }
  }

  /** Once the delay is at the cap, further failures keep it there. */
  lemma {:induction false} SaturatedStays(n: nat)
    ensures AfterFailures(MAX_BACKOFF_DELAY, n) == MAX_BACKOFF_DELAY
  {
    if n > 0 {
      assert Grow(MAX_BACKOFF_DELAY) == MAX_BACKOFF_DELAY;
      SaturatedStays(n - 1);
    }
  }

  /** `m + n` failures are `m` failures followed by `n` more. */
  lemma {:induction false} SplitFailures(delay: real, m: nat, n: nat)
    decreases m
    ensures AfterFailures(delay, m + n) == AfterFailures(AfterFailures(delay, m), n)
  {
    if m > 0 {
      SplitFailures(Grow(delay), m - 1, n);
    }
  }
}
