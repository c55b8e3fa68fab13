/** The operational clock of utils/time.js: an 8 AM-to-8 AM "day" and a
    Monday-8 AM "week" in Mexico City local time.

    An instant is an integer number of milliseconds on the local wall-clock
    timeline, a fixed offset from UTC (Mexico City has kept one offset all
    year since 2022).  Instant 0 is local midnight at the start of
    1970-01-01, a Thursday.  The reference instant `now` is a parameter
    instead of a read of the system clock. */
module Clock {

  type Instant = int

  const MinuteMs: int := 60 * 1000
  const HourMs: int := 60 * MinuteMs
  const DayMs: int := 24 * HourMs
  const WeekMs: int := 7 * DayMs

  /** EIGHT_AM_HOUR, and the time of day 08:00:00.000 in milliseconds. */
  const EightAmHour: int := 8
  const EightAmMs: int := EightAmHour * HourMs

  /** The local calendar date of `t`, as a count of days since 1970-01-01. */
  function DayNumber(t: Instant): int
  {
    t / DayMs
  }

  /** Milliseconds since local midnight. */
  function TimeOfDay(t: Instant): (ms: int)
    ensures 0 <= ms < DayMs
    ensures t == DayNumber(t) * DayMs + ms
  {
    t % DayMs
  }

  /** luxon's `weekday`: 1 for Monday through 7 for Sunday. */
  function IsoWeekday(t: Instant): (d: int)
    ensures 1 <= d <= 7
  {
    (DayNumber(t) + 3) % 7 + 1
  }

  /** The instant on day `day` at time of day `ms`: its date and time of day
      are exactly `day` and `ms`. */
  lemma {:induction false} AtDay(day: int, ms: int)
    requires 0 <= ms < DayMs
    ensures DayNumber(day * DayMs + ms) == day
    ensures TimeOfDay(day * DayMs + ms) == ms
  {
    var t := day * DayMs + ms;
    var d, r := DayNumber(t), TimeOfDay(t);
    assert (d - day) * DayMs == ms - r;
  }

  /** Moving by whole days keeps the time of day and shifts the weekday. */
  lemma {:induction false} ShiftDays(t: Instant, k: int)
    ensures DayNumber(t + k * DayMs) == DayNumber(t) + k
    ensures TimeOfDay(t + k * DayMs) == TimeOfDay(t)
    ensures IsoWeekday(t + k * DayMs) == (IsoWeekday(t) - 1 + k) % 7 + 1
  {
    assert t + k * DayMs == (DayNumber(t) + k) * DayMs + TimeOfDay(t);
    AtDay(DayNumber(t) + k, TimeOfDay(t));
  }

  /** luxon `set({ hour: 8, minute: 0, second: 0, millisecond: 0 })`: the same
      local date at 08:00:00.000. */
  function AtEightAm(t: Instant): (r: Instant)
    ensures DayNumber(r) == DayNumber(t) && TimeOfDay(r) == EightAmMs
    ensures IsoWeekday(r) == IsoWeekday(t)
    ensures t < r <==> TimeOfDay(t) < EightAmMs
  {
    AtDay(DayNumber(t), EightAmMs);
    DayNumber(t) * DayMs + EightAmMs
  }

  /** luxon `startOf('week')`: midnight of the Monday of `t`'s ISO week. */
  function StartOfIsoWeek(t: Instant): (r: Instant)
    ensures IsoWeekday(r) == 1 && TimeOfDay(r) == 0
    ensures DayNumber(r) == DayNumber(t) - (IsoWeekday(t) - 1)
    ensures r <= t < r + WeekMs
  {
    var day := DayNumber(t) - (IsoWeekday(t) - 1);
    AtDay(day, 0);
    day * DayMs
  }

  datatype Range = Range(start: Instant, end: Instant)

  /** getDailyTimeRange (utils/time.js:20-31) with `now` injected.  The
      "day" started at 08:00 today, or at 08:00 yesterday when `now` is
      earlier than 08:00; it ends one millisecond before the next 08:00. */
  function DailyTimeRange(now: Instant): (r: Range)
    ensures TimeOfDay(r.start) == EightAmMs
    ensures r.start <= now <= r.end && r.end == r.start + DayMs - 1
    ensures TimeOfDay(now) < EightAmMs ==> DayNumber(r.start) == DayNumber(now) - 1
    ensures TimeOfDay(now) >= EightAmMs ==> DayNumber(r.start) == DayNumber(now)
  {
    var todayAtEight := AtEightAm(now);
    var start := if now < todayAtEight then todayAtEight - DayMs else todayAtEight;
    ShiftDays(todayAtEight, -1);
    Range(start, start + DayMs - 1)
  }

  /** getWeeklyTimeRange (utils/time.js:38-55) with `now` injected.  The
      "week" started at 08:00 on the Monday of the current ISO week, or a
      week earlier when `now` is a Monday before 08:00; it ends one
      millisecond before 08:00 on the following Monday. */
  function WeeklyTimeRange(now: Instant): (r: Range)
    ensures IsoWeekday(r.start) == 1 && TimeOfDay(r.start) == EightAmMs
    ensures r.start <= now <= r.end && r.end == r.start + WeekMs - 1
  {
    var todayAtEight := AtEightAm(now);
    var monday := AtEightAm(StartOfIsoWeek(todayAtEight));
    var start := if IsoWeekday(now) == 1 && now < monday then monday - WeekMs else monday;
    ShiftDays(monday, -7);
    Range(start, start + WeekMs - 1)
  }

  /** Which Monday the week starts on: on a Monday before 08:00 it is the
      previous Monday, seven days before today's date; on every other
      instant it is the Monday of the current ISO week. */
  lemma WeeklyStartDay(now: Instant)
    ensures IsoWeekday(now) == 1 && TimeOfDay(now) < EightAmMs ==>
              DayNumber(WeeklyTimeRange(now).start) == DayNumber(now) - 7
    ensures !(IsoWeekday(now) == 1 && TimeOfDay(now) < EightAmMs) ==>
              DayNumber(WeeklyTimeRange(now).start) == DayNumber(StartOfIsoWeek(now))
  {
    var monday := AtEightAm(StartOfIsoWeek(AtEightAm(now)));
    ShiftDays(monday, -7);
  }

  /** Two 08:00 instants less than a day apart are the same instant. */
  lemma {:induction false} SameEightAm(s: Instant, s': Instant)
    requires TimeOfDay(s) == EightAmMs && TimeOfDay(s') == EightAmMs
    requires s - DayMs < s' < s + DayMs
    ensures s == s'
  {
    var d, d' := DayNumber(s), DayNumber(s');
    assert (d' - d) * DayMs == s' - s;
  }

  /** The daily start is the one 08:00 instant in the 24 hours up to `now`. */
  lemma DailyStartUnique(now: Instant, s: Instant)
    requires TimeOfDay(s) == EightAmMs && s <= now < s + DayMs
    ensures DailyTimeRange(now).start == s
  {
    SameEightAm(s, DailyTimeRange(now).start);
  }

  /** Two Monday-08:00 instants less than a week apart are the same instant. */
  lemma {:induction false} SameMondayEightAm(s: Instant, s': Instant)
    requires IsoWeekday(s) == 1 && TimeOfDay(s) == EightAmMs
    requires IsoWeekday(s') == 1 && TimeOfDay(s') == EightAmMs
    requires s - WeekMs < s' < s + WeekMs
    ensures s == s'
  {
    var d, d' := DayNumber(s), DayNumber(s');
    var a, a' := (d + 3) / 7, (d' + 3) / 7;
    assert d + 3 == 7 * a && d' + 3 == 7 * a';
    assert (a' - a) * WeekMs == (d' - d) * DayMs;
    SameEightAm(s, s');
  }

  /** The weekly start is the one Monday-08:00 instant in the week up to `now`. */
  lemma WeeklyStartUnique(now: Instant, s: Instant)
    requires IsoWeekday(s) == 1 && TimeOfDay(s) == EightAmMs && s <= now < s + WeekMs
    ensures WeeklyTimeRange(now).start == s
  {
    SameMondayEightAm(s, WeeklyTimeRange(now).start);
  }

  /** The daily ranges partition the timeline: `t` gets the same range as
      `now` exactly when it lies between that range's start and end,
      both inclusive. */
  lemma SameOperationalDay(now: Instant, t: Instant)
    ensures DailyTimeRange(t) == DailyTimeRange(now) <==>
              DailyTimeRange(now).start <= t <= DailyTimeRange(now).end
  {
    var r := DailyTimeRange(now);
    if r.start <= t <= r.end {
      DailyStartUnique(t, r.start);
    }
  }

  /** The weekly ranges partition the timeline in the same way. */
  lemma SameOperationalWeek(now: Instant, t: Instant)
    ensures WeeklyTimeRange(t) == WeeklyTimeRange(now) <==>
              WeeklyTimeRange(now).start <= t <= WeeklyTimeRange(now).end
  {
    var r := WeeklyTimeRange(now);
    if r.start <= t <= r.end {
      WeeklyStartUnique(t, r.start);
    }
  }

  /** The `from` bound of the by-process reports: the given date at 08:00. */
  function FromBound(date: Instant): (b: Instant)
    ensures DayNumber(b) == DayNumber(date) && TimeOfDay(b) == EightAmMs
  {
    AtEightAm(date)
  }

  /** The `to` bound: the given date plus one day at 08:00, less one
      millisecond, so 07:59:59.999 on the following date. */
  function ToBound(date: Instant): (b: Instant)
    ensures DayNumber(b) == DayNumber(date) + 1 && TimeOfDay(b) == EightAmMs - 1
    ensures b == FromBound(date) + DayMs - 1
  {
    var b := AtEightAm(date) + DayMs - 1;
    AtDay(DayNumber(date) + 1, EightAmMs - 1);
    b
  }

  /** A range's start and end read as the query filter
      `.gte(column, start).lt(column, end)`: the end itself is excluded. */
  predicate InQueryWindow(r: Range, t: Instant)
  {
    r.start <= t < r.end
  }

  /** As written, the query filter over a daily range leaves out the last
      millisecond of the operational day: 07:59:59.999 belongs to the day
      (it gets the same range) but not to the filter. */
  lemma QueryWindowMissesLastMs(now: Instant)
    ensures var r := DailyTimeRange(now);
              DailyTimeRange(r.end) == r && !InQueryWindow(r, r.end)
    ensures forall t :: InQueryWindow(DailyTimeRange(now), t) <==>
              DailyTimeRange(now).start <= t < DailyTimeRange(now).start + DayMs - 1
  {
    SameOperationalDay(now, DailyTimeRange(now).end);
  }
}
