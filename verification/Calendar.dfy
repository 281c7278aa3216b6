/** UTC time as a count of microseconds since the epoch, and the calendar the code reads off it. */
module Calendar {

  const SECOND := 1_000_000
  const MINUTE := 60 * SECOND
  const HOUR := 60 * MINUTE
  const DAY := 24 * HOUR

  /** The UTC date, as days since the epoch. */
  function Date(ts: int): int {
    ts / DAY
  }

  function DayStart(ts: int): int {
    Date(ts) * DAY
  }

  /** Monday is 0; day zero of the epoch was a Thursday. */
  function Weekday(date: int): int {
    (date + 3) % 7
  }

  function WeekStart(ts: int): int {
    (Date(ts) - Weekday(Date(ts))) * DAY
  }

  function HourOfDay(ts: int): int {
    (ts % DAY) / HOUR
  }

  /** Dates and days in microseconds, from the midnight that began 1 January 1970. */
  lemma DayHolds(ts: int)
    ensures DayStart(ts) <= ts < DayStart(ts) + 86_400_000_000 && DayStart(ts) % 86_400_000_000 == 0
    ensures DayStart(ts) == Date(ts) * 86_400_000_000
    ensures 0 <= HourOfDay(ts) <= 23
    ensures DayStart(ts) + HourOfDay(ts) * 3_600_000_000 <= ts < DayStart(ts) + (HourOfDay(ts) + 1) * 3_600_000_000
  {
    var day, rest := ts / DAY, ts % DAY;
    assert ts == day * DAY + rest;
  }

  /** A week begins at the midnight of a Monday, like the one of 5 January 1970, and holds seven days. */
  lemma WeekHolds(ts: int)
    ensures WeekStart(ts) <= ts < WeekStart(ts) + 604_800_000_000
    ensures (WeekStart(ts) - 345_600_000_000) % 604_800_000_000 == 0
  {
    var date, rest := ts / DAY, ts % DAY;
    assert ts == date * DAY + rest;
    var week, weekday := (date + 3) / 7, (date + 3) % 7;
    assert date + 3 == week * 7 + weekday;
    assert WeekStart(ts) == (week * 7 - 3) * DAY;
    assert WeekStart(ts) - 345_600_000_000 == (week - 1) * 604_800_000_000;
    WholeWeeks(week - 1);
  }

  lemma WholeWeeks(n: int)
    ensures n * 604_800_000_000 % 604_800_000_000 == 0
  {
  }
}
