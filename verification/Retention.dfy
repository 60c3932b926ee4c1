/** A stored point's resolution is a function of its age. */
module Retention {
  import opened Basics

  const HOUR_WALL_DAYS := 365
  const DAY_WALL_DAYS := 730

  datatype Rung = Raw | Hour | Day

  /** Ages and instants are in seconds. */
  function RungAt(age: int): Rung {
    if age < HOUR_WALL_DAYS * SECONDS_PER_DAY then Raw
    else if age <= DAY_WALL_DAYS * SECONDS_PER_DAY then Hour
    else Day
  }

  function HourlyWall(now: int): int {
    now - HOUR_WALL_DAYS * SECONDS_PER_DAY
  }

  function DailyWall(now: int): int {
    now - DAY_WALL_DAYS * SECONDS_PER_DAY
  }

  /** An hour never straddles two UTC days. */
  lemma SameHourSameDay(a: int, b: int)
    requires HourOf(a) == HourOf(b)
    ensures DayOf(a) == DayOf(b)
  {
    assert DayOf(a) == HourOf(a) / 24 && DayOf(b) == HourOf(b) / 24;
  }
}
