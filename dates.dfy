/**
 * Local date-times as the app's JavaScript `Date` values expose them.
 * Dates are abstracted to whole days counted from the epoch plus
 * milliseconds since local midnight; there is no time zone and no
 * daylight-saving shift.
 */
module Dates {

  /** Milliseconds since local midnight. */
  type TimeOfDay = t: int | 0 <= t < 86_400_000

  /** A day of the month as `getDate()` returns it. */
  type DayOfMonth = d: int | 1 <= d <= 31 witness 1

  /**
   * A normalised date-time: `monthStart` is the day number of the first
   * day of its month, `date` the day of the month and `timeOfDay` the
   * clock time.
   */
  datatype Moment = Moment(monthStart: int, date: DayOfMonth, timeOfDay: TimeOfDay)

  /** The epoch milliseconds of day `date` of the month starting on day `monthStart`. */
  function MsAt(monthStart: int, date: int, timeOfDay: TimeOfDay): int
  {
    (monthStart + date - 1) * 86_400_000 + timeOfDay
  }

  /** `getTime()`. */
  function Time(m: Moment): int
  {
    MsAt(m.monthStart, m.date, m.timeOfDay)
  }

  /**
   * `getTime()` of a copy of `m` after `setDate(d)`: the same month and
   * clock time, with a day of the month that may run past the month's
   * end (or below 1) and so rolls over into a neighbouring month.
   */
  function SetDateTime(m: Moment, d: int): (ms: int)
    ensures ms == Time(m) + (d - m.date) * 86_400_000
    ensures ms % 86_400_000 == m.timeOfDay
  {
    MsAt(m.monthStart, d, m.timeOfDay)
  }

  /** date-fns `isBefore(a, b)`. */
  predicate IsBefore(a: Moment, b: Moment)
  {
    Time(a) < Time(b)
  }

  /** Whole minutes since midnight. */
  function MinuteOfDay(m: Moment): (x: int)
    ensures 0 <= x < 1440
  {
    m.timeOfDay / 60_000
  }

  /** Hours on the 24-hour clock: the whole hours in the minutes since midnight. */
  function Hours(m: Moment): (h: int)
    ensures 0 <= h < 24
  {
    MinuteOfDay(m) / 60
  }

  function Minutes(m: Moment): (min: int)
    ensures 0 <= min < 60
  {
    MinuteOfDay(m) % 60
  }

  function Digit(n: int): (c: char)
    requires 0 <= n < 10
    ensures '0' <= c <= '9' && DigitValue(c) == n
  {
    ('0' as int + n) as char
  }

  function DigitValue(c: char): int
  {
    c as int - '0' as int
  }

  function TwoDigits(n: int): (s: string)
    requires 0 <= n < 100
    ensures |s| == 2 && '0' <= s[0] <= '9' && '0' <= s[1] <= '9'
    ensures DigitValue(s[0]) * 10 + DigitValue(s[1]) == n
  {
    [Digit(n / 10), Digit(n % 10)]
  }

  /**
   * date-fns `format(m, "HH:mm")`: two-digit hours on the 24-hour clock,
   * a colon, two-digit minutes.
   */
  function FormatHourMinute(m: Moment): (s: string)
    ensures |s| == 5 && s[2] == ':'
    ensures forall i :: i in {0, 1, 3, 4} ==> '0' <= s[i] <= '9'
    ensures DigitValue(s[0]) * 10 + DigitValue(s[1]) == Hours(m)
    ensures DigitValue(s[3]) * 10 + DigitValue(s[4]) == Minutes(m)
  {
    TwoDigits(Hours(m)) + ":" + TwoDigits(Minutes(m))
  }

  /** Two moments with the same clock time render the same "HH:mm", and the rendering determines the minute of the day. */
  lemma FormatDeterminesMinuteOfDay(a: Moment, b: Moment)
    ensures FormatHourMinute(a) == FormatHourMinute(b) <==> MinuteOfDay(a) == MinuteOfDay(b)
  {
    var sa, sb := FormatHourMinute(a), FormatHourMinute(b);
    if sa == sb {
      assert sa[0] == sb[0] && sa[1] == sb[1] && sa[3] == sb[3] && sa[4] == sb[4];
      assert Hours(a) == Hours(b) && Minutes(a) == Minutes(b);
      assert MinuteOfDay(a) == Hours(a) * 60 + Minutes(a);
      assert MinuteOfDay(b) == Hours(b) * 60 + Minutes(b);
    }
  }
}
