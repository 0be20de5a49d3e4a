/**
 * The rescan scheduler `folderScanner` of lib/model/folderscanner.go: two
 * configured intervals and the timer of the next automatic scan. Durations
 * are Go's `time.Duration`, signed 64-bit nanoseconds, so the arithmetic
 * below wraps around as Go's does and divides by truncation.
 */
module RescanSchedule {

  const MaxInt64: int := 0x7fff_ffff_ffff_ffff
  const TwoTo64: int := 0x1_0000_0000_0000_0000

  type Int64 = x: int | -0x8000_0000_0000_0000 <= x <= 0x7fff_ffff_ffff_ffff

  const Millisecond: Int64 := 1_000_000
  const Second: Int64 := 1_000_000_000

  /** Two's-complement wrap-around of a mathematical integer into int64. */
  function Wrap64(x: int): (r: Int64)
    ensures -MaxInt64 - 1 <= x <= MaxInt64 ==> r == x
    ensures (x - r) % TwoTo64 == 0
  {
    var m := x % TwoTo64;
    if m <= MaxInt64 then m else m - TwoTo64
  }

  /**
   * Go's `a / 4` on integers. Go defines the quotient by `a == 4 * q + m`
   * with `|m| < 4` and a remainder `m` that is zero or has the sign of `a`
   * (truncation toward zero), unlike Dafny's Euclidean `/`.
   */
  function Quot4(a: int): (q: int)
    ensures -4 < a - 4 * q < 4
    ensures a - 4 * q == 0 || (a - 4 * q < 0 <==> a < 0)
    ensures a >= 0 ==> q == a / 4
  {
    if a >= 0 then a / 4 else -((-a) / 4)
  }

  /** Go's definition of the quotient has one solution only, and `Quot4` is it. */
  lemma Quot4Unique(a: int, q: int)
    requires -4 < a - 4 * q < 4
    requires a - 4 * q == 0 || (a - 4 * q < 0 <==> a < 0)
    ensures q == Quot4(a)
  {
  }

  /** `time.Duration(s) * time.Second`. */
  function SecondsToDuration(s: Int64): (d: Int64)
    ensures -(MaxInt64 / Second) <= s <= MaxInt64 / Second ==> d == s * Second
    ensures s == 0 ==> d == 0
  {
    Wrap64(s * Second)
  }

  /** The multiplication wraps too: 2^55 seconds becomes a zero interval, which switches rescans off. */
  lemma SecondsOverflowToZero()
    ensures SecondsToDuration(0x80_0000_0000_0000) == 0
  {
  }

  /** 2^54 seconds wraps to the least int64 duration, -2^63 ns, for which no draw exists (`NoDraw`). */
  lemma SecondsOverflowToMinInt64()
    ensures SecondsToDuration(0x40_0000_0000_0000) == -0x8000_0000_0000_0000
  {
  }

  /**
   * A valid draw of `rand.Int63n(2 * interval)` for a non-zero interval:
   * `Int63n` panics unless its argument, the wrapped double, is positive.
   * There is none for `interval == -2^63`, for `-2^62 <= interval < 0` and
   * for `interval >= 2^62` (`NoDraw`); for `-2^63 < interval < -2^62` the
   * double wraps positive and draws exist (`DrawBelowMinusTwoTo62`).
   */
  predicate ValidDraw(interval: Int64, r: int) {
    interval == 0 || 0 <= r < Wrap64(2 * interval)
  }

  /**
   * `(interval*3 + r) / 4` in int64. Without overflow it lies in
   * [3/4 interval, 5/4 interval).
   */
  function JitteredSleep(interval: Int64, r: Int64): (s: Int64)
    ensures 0 < interval && 0 <= r < 2 * interval && 5 * interval <= MaxInt64 + 1 ==>
      s == (3 * interval + r) / 4 && (3 * interval) / 4 <= s && 4 * s < 5 * interval
  {
    Quot4(Wrap64(Wrap64(interval * 3) + r))
  }

  /** Both ends of the jitter range are reached: r = 0 gives the least delay, r = 2I - 1 the greatest. */
  lemma JitterExtremes(interval: Int64, r: Int64)
    requires 0 < interval && 5 * interval <= MaxInt64 + 1 && 0 <= r < 2 * interval
    ensures JitteredSleep(interval, 0) == (3 * interval) / 4
    ensures JitteredSleep(interval, 0) <= JitteredSleep(interval, r) <= JitteredSleep(interval, 2 * interval - 1)
    ensures JitteredSleep(interval, 2 * interval - 1) == (5 * interval - 1) / 4
  {
    JitterMonotone(interval, 0, r);
    JitterMonotone(interval, r, 2 * interval - 1);
  }

  /** A larger draw never gives a shorter delay. */
  lemma JitterMonotone(interval: Int64, r1: Int64, r2: Int64)
    requires 0 < interval && 5 * interval <= MaxInt64 + 1
    requires 0 <= r1 <= r2 < 2 * interval
    ensures JitteredSleep(interval, r1) <= JitteredSleep(interval, r2)
  {
    var a, b := 3 * interval + r1, 3 * interval + r2;
    assert a / 4 * 4 <= a <= b < (b / 4 + 1) * 4;
  }

  /** The intervals for which `rand.Int63n(2 * interval)` panics: no draw is valid. */
  lemma NoDraw(interval: Int64, r: int)
    requires interval == -0x8000_0000_0000_0000 || -0x4000_0000_0000_0000 <= interval < 0 || interval >= 0x4000_0000_0000_0000
    ensures !ValidDraw(interval, r)
  {
    if interval == -0x8000_0000_0000_0000 {
      assert Wrap64(2 * interval) == 0;
    } else if interval >= 0x4000_0000_0000_0000 {
      assert Wrap64(2 * interval) == 2 * interval - TwoTo64;
    }
  }

  /** Strictly between -2^63 and -2^62 ns the wrapped double is positive, so the draw 0 is valid. */
  lemma DrawBelowMinusTwoTo62(interval: Int64)
    requires -0x8000_0000_0000_0000 < interval < -0x4000_0000_0000_0000
    ensures ValidDraw(interval, 0)
  {
    assert Wrap64(2 * interval) == 2 * interval + TwoTo64;
  }

  /** At -5·10^9 s, inside that range, a draw exists and the delay it gives is even positive. */
  lemma DrawForHugeNegativeInterval()
    ensures ValidDraw(-5_000_000_000 * Second, 0)
    ensures JitteredSleep(-5_000_000_000 * Second, 0) > 0
  {
    assert Wrap64(2 * (-5_000_000_000 * Second)) == 2 * (-5_000_000_000 * Second) + TwoTo64;
  }

  /**
   * Once `5 * interval` exceeds int64 (about 58 years), large draws overflow
   * the sum while small ones do not: at 2·10^9 s (about 63 years) the draw 0
   * gives a positive delay and the draw 3.5·10^18 a negative one, so the
   * timer fires at once.
   */
  lemma JitterSumOverflow()
    ensures ValidDraw(2_000_000_000 * Second, 0)
    ensures JitteredSleep(2_000_000_000 * Second, 0) > 0
    ensures ValidDraw(2_000_000_000 * Second, 3_500_000_000_000_000_000)
    ensures JitteredSleep(2_000_000_000 * Second, 3_500_000_000_000_000_000) < 0
  {
  }

  /**
   * From `2^63 / 3` to `2^64 / 5` ns (about 97 to 117 years) `3 * interval`
   * wraps negative and even the largest draw cannot lift the sum above zero:
   * every valid draw gives a delay of at most 0.
   */
  lemma NoPositiveDelayInBand(interval: Int64, r: Int64)
    requires 3_074_457_345_618_258_603 <= interval <= 3_689_348_814_741_910_323
    requires ValidDraw(interval, r)
    ensures JitteredSleep(interval, r) <= 0
  {
    assert Wrap64(interval * 3) == interval * 3 - TwoTo64;
    assert Wrap64(2 * interval) == 2 * interval;
    var s := Wrap64(interval * 3) + r;
    assert -MaxInt64 - 1 <= s <= MaxInt64;
  }

  /** Just below that band `3 * interval` still fits, and the draw 0 gives a positive delay. */
  lemma PositiveDelayBelowBand()
    ensures ValidDraw(3_074_457_345_618_258_602, 0)
    ensures JitteredSleep(3_074_457_345_618_258_602, 0) > 0
  {
  }

  /** Inside that band, at 3.1·10^9 s, `3 * interval` wraps and the least draw gives a negative delay. */
  lemma JitterOverflow()
    ensures ValidDraw(3_100_000_000 * Second, 0)
    ensures JitteredSleep(3_100_000_000 * Second, 0) < 0
  {
  }

  /**
   * Above `2^64 / 5` ns (about 117 years) the sign depends on the draw again:
   * at 4.6·10^9 s the draw 0 gives a negative delay, and the draw 9·10^18
   * wraps the sum back to a positive one.
   */
  lemma JitterWrapsBackPositive()
    ensures ValidDraw(4_600_000_000 * Second, 0)
    ensures JitteredSleep(4_600_000_000 * Second, 0) < 0
    ensures ValidDraw(4_600_000_000 * Second, 9_000_000_000_000_000_000)
    ensures JitteredSleep(4_600_000_000 * Second, 9_000_000_000_000_000_000) > 0
  {
  }

  /** The timer after `reschedule(interval)`: untouched for a zero interval. */
  function Rescheduled(timer: Int64, interval: Int64, r: Int64): Int64 {
    if interval == 0 then timer else JitteredSleep(interval, r)
  }

  /** The whole effect of rescheduling on the timer, for every interval that fits int64 arithmetic. */
  lemma RescheduleBounds(timer: Int64, interval: Int64, r: Int64)
    requires 0 <= interval && 5 * interval <= MaxInt64 + 1 && ValidDraw(interval, r)
    ensures interval == 0 ==> Rescheduled(timer, interval, r) == timer
    ensures interval > 0 ==>
      (3 * interval) / 4 <= Rescheduled(timer, interval, r) && 4 * Rescheduled(timer, interval, r) < 5 * interval
  {
    if interval > 0 {
      assert Wrap64(2 * interval) == 2 * interval;
    }
  }

  class FolderScanner {
    var interval: Int64
    var longInterval: Int64
    /** The duration the rescan timer was last armed with. */
    var timer: Int64

    /** `newFolderScanner`: intervals from the configuration in seconds; the first scan is due after 1 ms. */
    constructor (rescanIntervalS: Int64, longRescanIntervalS: Int64)
      ensures interval == SecondsToDuration(rescanIntervalS)
      ensures longInterval == SecondsToDuration(longRescanIntervalS)
      ensures timer == Millisecond
    {
      interval := SecondsToDuration(rescanIntervalS);
      longInterval := SecondsToDuration(longRescanIntervalS);
      timer := Millisecond;
    }

    /** `HasNoInterval`: automatic rescans are switched off, so rescheduling never moves the timer. */
    predicate HasNoInterval(): (r: bool)
      reads this
      ensures r <==> interval == 0
      ensures r ==> forall t: Int64, x: Int64 :: Rescheduled(t, interval, x) == t
    {
      interval == 0
    }

    /**
     * `reschedule`: a zero interval leaves the timer alone; any other arms it
     * with the jittered delay for the draw `r`.
     */
    method RescheduleFor(interval: Int64, r: Int64)
      requires ValidDraw(interval, r)
      modifies this`timer
      ensures interval == 0 ==> timer == old(timer)
      ensures interval != 0 ==> timer == JitteredSleep(interval, r)
      ensures timer == Rescheduled(old(timer), interval, r)
    {
      if interval == 0 {
        return;
      }
      timer := JitteredSleep(interval, r);
    }

    /** `Reschedule`: reschedule with the short interval; nothing happens when it is off. */
    method Reschedule(r: Int64)
      requires ValidDraw(interval, r)
      modifies this`timer
      ensures HasNoInterval() ==> timer == old(timer)
      ensures timer == Rescheduled(old(timer), interval, r)
    {
      RescheduleFor(interval, r);
    }

    /** `LongReschedule`: reschedule with the long interval. */
    method LongReschedule(r: Int64)
      requires ValidDraw(longInterval, r)
      modifies this`timer
      ensures timer == Rescheduled(old(timer), longInterval, r)
    {
      RescheduleFor(longInterval, r);
    }
  }
}
