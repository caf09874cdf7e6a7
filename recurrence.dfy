/**
 * The arithmetic `savePlant` does before it schedules a reminder: the
 * next watering time and the trigger delay in seconds.
 */
module Recurrence {
  import opened Dates

  /** `frequency`: how many waterings per `repeatEvery` unit. */
  datatype Frequency = Frequency(times: int, repeatEvery: string)

  /** What the arithmetic needs of a frequency: the weekly branch divides by `times`. */
  predicate ValidFrequency(f: Frequency)
  {
    f.repeatEvery == "week" ==> f.times >= 1
  }

  /** `Math.trunc(7 / times)`: whole days between waterings of a weekly plant. */
  function IntervalDays(times: int): (d: int)
    requires times >= 1
    ensures 0 <= d <= 7
    ensures d * times <= 7 < (d + 1) * times
  {
    7 / times
  }

  lemma IntervalExamples()
    ensures IntervalDays(7) == 1 && IntervalDays(1) == 7
    ensures IntervalDays(2) == 3 && IntervalDays(3) == 2
    ensures forall t :: t > 7 ==> IntervalDays(t) == 0
  {
  }

  /**
   * The epoch milliseconds of `nextTime`: a copy of the base time whose
   * day of the month is set to now's day of the month plus the interval
   * for a weekly plant, and to its own day plus one otherwise.
   */
  function NextTime(base: Moment, now: Moment, f: Frequency): (ms: int)
    requires ValidFrequency(f)
    ensures f.repeatEvery == "week" ==>
      ms == Time(base) + (now.date + IntervalDays(f.times) - base.date) * 86_400_000
    ensures f.repeatEvery != "week" ==> ms == Time(base) + 86_400_000
    ensures ms % 86_400_000 == base.timeOfDay
  {
    if f.repeatEvery == "week" then
      SetDateTime(base, now.date + IntervalDays(f.times))
    else
      SetDateTime(base, base.date + 1)
  }

  /** For a weekly plant the result lands on the base's month, on now's day plus the interval. */
  lemma WeeklyLandsOnNowsDayPlusInterval(base: Moment, now: Moment, f: Frequency)
    requires f.repeatEvery == "week" && f.times >= 1
    ensures NextTime(base, now, f) == MsAt(base.monthStart, now.date + 7 / f.times, base.timeOfDay)
    ensures f.times == 7 ==> NextTime(base, now, f) == MsAt(base.monthStart, now.date + 1, base.timeOfDay)
    ensures f.times == 1 ==> NextTime(base, now, f) == MsAt(base.monthStart, now.date + 7, base.timeOfDay)
  {
  }

  /** Whatever `times` is, a plant that is not weekly is next watered one day after its base time. */
  lemma NotWeeklyIsOneDayLater(base: Moment, now: Moment, times: int, repeatEvery: string)
    requires repeatEvery != "week"
    ensures NextTime(base, now, Frequency(times, repeatEvery)) == Time(base) + 86_400_000
  {
  }

  /** When the base time is on today's date, a weekly plant's next time is the base plus the interval. */
  lemma WeeklySameDayIsBasePlusInterval(base: Moment, now: Moment, f: Frequency)
    requires f.repeatEvery == "week" && f.times >= 1
    requires base.monthStart == now.monthStart && base.date == now.date
    ensures NextTime(base, now, f) == Time(base) + IntervalDays(f.times) * 86_400_000
    ensures f.times <= 7 ==> NextTime(base, now, f) > Time(base)
  {
  }

  /**
   * The weekly branch reads the day of the month from `now` but writes it
   * into the base's month. A base picked late on January 31 and saved
   * just after midnight on February 1 gets a next time of January 2,
   * before both the base and now.
   */
  lemma WeeklyAcrossMonthEndFallsInThePast()
    ensures var base := Moment(0, 31, 23 * 3_600_000);
            var now := Moment(31, 1, 10 * 60_000);
            var next := NextTime(base, now, Frequency(7, "week"));
            next < Time(base) && next < Time(now) && next == MsAt(0, 2, 23 * 3_600_000)
  {
  }

  /** `Math.ceil(x / 1000)` for an integer number of milliseconds. */
  function CeilSeconds(x: int): (c: int)
    ensures (c - 1) * 1000 < x <= c * 1000
  {
    -((-x) / 1000)
  }

  function Abs(x: int): (a: int)
    ensures a >= 0 && (a == x || a == -x)
  {
    if x < 0 then -x else x
  }

  /**
   * The trigger's `seconds`: the absolute value of the rounded-up
   * difference `now - next` in seconds, raised to 60 when smaller.
   */
  function TriggerSeconds(nowMs: int, nextMs: int): (s: int)
    ensures s >= 60
    ensures s > 60 && nowMs >= nextMs ==> (s - 1) * 1000 < nowMs - nextMs <= s * 1000
    ensures s > 60 && nowMs < nextMs ==> s * 1000 <= nextMs - nowMs < (s + 1) * 1000
  {
    var seconds := Abs(CeilSeconds(nowMs - nextMs));
    if seconds < 60 then 60 else seconds
  }

  /** The clamp only raises: a rounded difference of 60 seconds or more is used as it is. */
  lemma TriggerIsExactFromSixty(nowMs: int, nextMs: int)
    requires Abs(CeilSeconds(nowMs - nextMs)) >= 60
    ensures TriggerSeconds(nowMs, nextMs) == Abs(CeilSeconds(nowMs - nextMs))
  {
  }

  /** A next time in the past and one equally far in the future give the same trigger, up to the rounding. */
  lemma TriggerIgnoresDirection(nowMs: int, d: int)
    requires d >= 0 && d % 1000 == 0
    ensures TriggerSeconds(nowMs, nowMs - d) == TriggerSeconds(nowMs, nowMs + d)
  {
  }
}
