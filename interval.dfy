/** The interval model: how long the scheduler waits before the next call.
    The wall clock (`getHours`, `getDay`) and `Math.random()` are parameters. */
module Interval {

  /** A value of `Math.random()`: a real in [0, 1). */
  type Unit = r: real | 0.0 <= r < 1.0

  /** The shortest delay the scheduler ever arms, in milliseconds. */
  const MinIntervalMs: real := 1000.0

  predicate IsBusinessHour(hour: int) { 9 <= hour <= 17 }
  predicate IsEveningHour(hour: int) { 18 <= hour <= 22 }
  predicate IsWeekday(day: int) { 1 <= day <= 5 }

  function TimeMultiplier(hour: int): (t: real)
    ensures IsBusinessHour(hour) ==> t == 0.7
    ensures IsEveningHour(hour) ==> t == 0.9
    ensures !IsBusinessHour(hour) && !IsEveningHour(hour) ==> t == 1.5
  {
    if hour >= 9 && hour <= 17 then 0.7
    else if hour >= 18 && hour <= 22 then 0.9
    else 1.5
  }

  function DayMultiplier(day: int): (d: real)
    ensures IsWeekday(day) ==> d == 0.8
    ensures !IsWeekday(day) ==> d == 1.3
  {
    if day >= 1 && day <= 5 then 0.8 else 1.3
  }

  /** `getSeasonalMultiplier` for the given hour (0-23) and day (0 = Sunday). */
  function SeasonalMultiplier(hour: int, day: int): (m: real)
    ensures m == TimeMultiplier(hour) * DayMultiplier(day)
    ensures 0.56 <= m <= 1.95
  {
    TimeMultiplier(hour) * DayMultiplier(day)
  }

  /** The six values the multiplier can take, by time band and day kind. */
  lemma SeasonalMultiplierTable(hour: int, day: int)
    ensures IsBusinessHour(hour) && IsWeekday(day) ==> SeasonalMultiplier(hour, day) == 0.56
    ensures IsBusinessHour(hour) && !IsWeekday(day) ==> SeasonalMultiplier(hour, day) == 0.91
    ensures IsEveningHour(hour) && IsWeekday(day) ==> SeasonalMultiplier(hour, day) == 0.72
    ensures IsEveningHour(hour) && !IsWeekday(day) ==> SeasonalMultiplier(hour, day) == 1.17
    ensures !IsBusinessHour(hour) && !IsEveningHour(hour) && IsWeekday(day) ==> SeasonalMultiplier(hour, day) == 1.2
    ensures !IsBusinessHour(hour) && !IsEveningHour(hour) && !IsWeekday(day) ==> SeasonalMultiplier(hour, day) == 1.95
  {
  }

  /** `(Math.random() - 0.5) * 2`: the draw moved to [-1, 1), negative
      exactly below the midpoint. */
  function JitterFactor(r: Unit): (f: real)
    ensures -1.0 <= f < 1.0
    ensures f < 0.0 <==> r < 0.5
    ensures f == 0.0 <==> r == 0.5
  {
    (r - 0.5) * 2.0
  }

  /** The jitter actually drawn: `(r - 0.5) * 2 * jitterAmount`. */
  function RandomJitter(jitterAmount: real, r: Unit): (x: real)
    ensures r == 0.5 || jitterAmount == 0.0 ==> x == 0.0
    ensures jitterAmount > 0.0 && r < 0.5 ==> x < 0.0
    ensures jitterAmount > 0.0 && r > 0.5 ==> x > 0.0
  {
    ProductSign(JitterFactor(r), jitterAmount);
    JitterFactor(r) * jitterAmount
  }

  /** A positive amount keeps the sign of the factor that scales it. */
  lemma ProductSign(f: real, j: real)
    ensures j > 0.0 && f < 0.0 ==> f * j < 0.0
    ensures j > 0.0 && f > 0.0 ==> f * j > 0.0
    ensures f == 0.0 || j == 0.0 ==> f * j == 0.0
  {
  }

  /** A factor in [-1, 1) scales a positive amount into [-j, j). */
  lemma ScaledWindow(f: real, j: real)
    requires -1.0 <= f < 1.0 && j > 0.0
    ensures -j <= f * j < j
  {
    assert (f + 1.0) * j >= 0.0;
    assert (1.0 - f) * j > 0.0;
    assert (f + 1.0) * j == f * j + j;
    assert (1.0 - f) * j == j - f * j;
  }

  /** The jitter lies in [-j, j) for a positive amount j, in (j, -j] for a
      negative one, and is 0 when j is. */
  lemma RandomJitterWindow(j: real, r: Unit)
    ensures j > 0.0 ==> -j <= RandomJitter(j, r) < j
    ensures j < 0.0 ==> j < RandomJitter(j, r) <= -j
    ensures j == 0.0 ==> RandomJitter(j, r) == 0.0
  {
    var f := JitterFactor(r);
    var x := RandomJitter(j, r);
    assert x == f * j;
    if j > 0.0 {
      ScaledWindow(f, j);
    } else if j < 0.0 {
      ScaledWindow(f, -j);
      assert f * (-j) == -(f * j);
    }
  }

  /** `baseValue + randomJitter` before the clamp. */
  function UnclampedJitter(baseValue: real, jitterPercent: real, r: Unit): (u: real)
    ensures jitterPercent == 0.0 || r == 0.5 ==> u == baseValue
    ensures jitterPercent > 0.0 && baseValue > 0.0 ==> (u < baseValue <==> r < 0.5)
  {
    baseValue + RandomJitter(jitterPercent / 100.0 * baseValue, r)
  }

  /** `addJitter(baseValue)` with `Math.random()` = r. */
  function AddJitter(baseValue: real, jitterPercent: real, r: Unit): (v: real)
    ensures v >= MinIntervalMs
    ensures v == MinIntervalMs || v == UnclampedJitter(baseValue, jitterPercent, r)
    ensures v >= UnclampedJitter(baseValue, jitterPercent, r)
    ensures jitterPercent == 0.0 ==> v == if baseValue >= MinIntervalMs then baseValue else MinIntervalMs
    ensures var j := jitterPercent / 100.0 * baseValue;
            j > 0.0 ==> baseValue - j <= UnclampedJitter(baseValue, jitterPercent, r) < baseValue + j
  {
    var j := jitterPercent / 100.0 * baseValue;
    RandomJitterWindow(j, r);
    assert jitterPercent == 0.0 ==> j == 0.0;
    var u := baseValue + RandomJitter(j, r);
    if u >= MinIntervalMs then u else MinIntervalMs
  }

  /** `calculateNextInterval()`: the seasonal interval with jitter applied. */
  function NextInterval(baseIntervalMs: real, jitterPercent: real, hour: int, day: int, r: Unit): (v: real)
    ensures v >= MinIntervalMs
    ensures v == AddJitter(baseIntervalMs * SeasonalMultiplier(hour, day), jitterPercent, r)
  {
    AddJitter(baseIntervalMs * SeasonalMultiplier(hour, day), jitterPercent, r)
  }

  /** Without jitter the delay is exactly the seasonal interval, unless the
      one-second floor applies. */
  lemma NextIntervalWithoutJitter(baseIntervalMs: real, hour: int, day: int, r: Unit)
    requires baseIntervalMs * SeasonalMultiplier(hour, day) >= MinIntervalMs
    ensures NextInterval(baseIntervalMs, 0.0, hour, day, r) == baseIntervalMs * SeasonalMultiplier(hour, day)
  {
  }

  /** With jitter the delay stays within the jitter window around the
      seasonal interval once the window is above the floor. */
  lemma NextIntervalWindow(baseIntervalMs: real, jitterPercent: real, hour: int, day: int, r: Unit)
    requires baseIntervalMs > 0.0 && 0.0 < jitterPercent
    ensures var s := baseIntervalMs * SeasonalMultiplier(hour, day);
            var j := jitterPercent / 100.0 * s;
            var v := NextInterval(baseIntervalMs, jitterPercent, hour, day, r);
            s - j <= v && (v < s + j || v == MinIntervalMs)
  {
    var s := baseIntervalMs * SeasonalMultiplier(hour, day);
    assert s > 0.0;
    assert jitterPercent / 100.0 * s > 0.0;
  }

  /** Tuesday 10:00 with a 30 s base interval and no jitter: 16.8 s. */
  lemma TuesdayMorningExample(r: Unit)
    ensures NextInterval(30000.0, 0.0, 10, 2, r) == 16800.0
  {
    NextIntervalWithoutJitter(30000.0, 10, 2, r);
  }
}
