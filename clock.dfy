/**
 * Instants are whole seconds since a fixed epoch. The platform calendar is
 * replaced by fixed 86400-second days: `DayStart` plays the role of
 * `Calendar.startOfDay`, and `WeekStart` that of the start of a week that
 * begins on Monday (`firstWeekday = 2`). Day 0 of the epoch is a Thursday.
 */
module Clock {
  const SecondsPerDay: int := 86400
  const SecondsPerWeek: int := 7 * 86400

  /** The first instant of the day that contains `t`. */
  function DayStart(t: int): (d: int)
    ensures d <= t < d + SecondsPerDay
    ensures d % SecondsPerDay == 0
  {
    t - t % SecondsPerDay
  }

  /** `calendar.date(byAdding: .day, value: 1, to: DayStart(t))` */
  function DayEnd(t: int): (e: int)
    ensures t < e <= t + SecondsPerDay
    ensures e == DayStart(t) + SecondsPerDay
  {
    DayStart(t) + SecondsPerDay
  }

  /** A day start is the only one in its day: this is what makes `DayStart` well defined. */
  lemma DayStartUnique(t: int, d: int)
    requires d % SecondsPerDay == 0
    ensures d <= t < d + SecondsPerDay <==> DayStart(t) == d
  {
    var k := DayStart(t);
    if d <= t < d + SecondsPerDay && k != d {
      assert k % SecondsPerDay == 0;
      DistinctDayStartsFarApart(k, d);
      assert false;
    }
  }

  lemma DistinctDayStartsFarApart(a: int, b: int)
    requires a % SecondsPerDay == 0 && b % SecondsPerDay == 0 && a < b
    ensures a + SecondsPerDay <= b
  {
    assert a == (a / SecondsPerDay) * SecondsPerDay;
    assert b == (b / SecondsPerDay) * SecondsPerDay;
    assert a / SecondsPerDay < b / SecondsPerDay;
  }

  /** Later instants never fall on an earlier day. */
  lemma DayStartMonotone(t: int, u: int)
    requires t <= u
    ensures DayStart(t) <= DayStart(u)
  {
    var a, b := DayStart(t), DayStart(u);
    if b < a {
      DistinctDayStartsFarApart(b, a);
    }
  }

  /** A day start is its own day start (`isDate(_, inSameDayAs:)` on day starts is equality). */
  lemma DayStartIdempotent(t: int)
    ensures DayStart(DayStart(t)) == DayStart(t)
  {
    DayStartUnique(DayStart(t), DayStart(t));
  }

  /** Monday-based index of the weekday of `t`: 0 for Monday, ..., 6 for Sunday. */
  function Weekday(t: int): (w: int)
    ensures 0 <= w < 7
  {
    (t / SecondsPerDay + 3) % 7
  }

  /** The first instant of the Monday-based week that contains `t`. */
  function WeekStart(t: int): (w: int)
    ensures w <= t < w + SecondsPerWeek
    ensures w % SecondsPerDay == 0
    ensures Weekday(w) == 0
  {
    var d := DayStart(t);
    assert d / SecondsPerDay == t / SecondsPerDay;
    var w := d - Weekday(t) * SecondsPerDay;
    assert w / SecondsPerDay == t / SecondsPerDay - Weekday(t);
    w
  }
}
