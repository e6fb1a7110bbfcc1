/**
 * Week-start arithmetic of the planner (components/Planner.tsx): the Monday of a date
 * and the step of a whole number of weeks. A date is a day number: day 0 is
 * 1970-01-01, which was a Thursday, and day d + 1 is the day after day d.
 */
module Dates {

  const SUNDAY := 0
  const MONDAY := 1

  /** `Date.getDay()`: 0 for Sunday, 1 for Monday, ..., 6 for Saturday. */
  function WeekDay(d: int): (w: int)
    ensures 0 <= w < 7
  {
    (d + 4) % 7
  }

  predicate IsMonday(d: int) {
    WeekDay(d) == MONDAY
  }

  /** Adding a whole number of weeks keeps the day of the week. */
  lemma WeekDayShift(d: int, weeks: int)
    ensures WeekDay(d + 7 * weeks) == WeekDay(d)
  {
  }

  /**
   * `getMonday`: the Monday on or before `d`. The source computes
   * `d - day + (day == 0 ? -6 : 1)` with `day = getDay(d)`, so a Sunday belongs to the
   * week that began six days earlier.
   */
  function GetMonday(d: int): (m: int)
    ensures IsMonday(m)
    ensures d - 6 <= m <= d
  {
    var day := WeekDay(d);
    d - day + (if day == SUNDAY then -6 else 1)
  }

  /** Any Monday at most six days before `d` is the one GetMonday finds. */
  lemma MondayIsUnique(d: int, m: int)
    requires IsMonday(m) && d - 6 <= m <= d
    ensures m == GetMonday(d)
  {
  }

  /** A Sunday maps to the Monday six days earlier. */
  lemma SundayMapsToPreviousMonday(d: int)
    requires WeekDay(d) == SUNDAY
    ensures GetMonday(d) == d - 6
  {
  }

  /** A Monday is its own week start. */
  lemma MondayIsFixed(d: int)
    requires IsMonday(d)
    ensures GetMonday(d) == d
  {
  }

  /** Normalising twice is normalising once. */
  lemma GetMondayIdempotent(d: int)
    ensures GetMonday(GetMonday(d)) == GetMonday(d)
  {
  }

  /** The week of a date `weeks` weeks later starts `weeks` weeks later. */
  lemma GetMondayShift(d: int, weeks: int)
    ensures GetMonday(d + 7 * weeks) == GetMonday(d) + 7 * weeks
  {
  }

  /** The `changeWeek(offset)` step: the same weekday, exactly 7 x offset days away. */
  function AddWeeks(start: int, offset: int): (r: int)
    ensures r - start == 7 * offset
    ensures WeekDay(r) == WeekDay(start)
  {
    start + offset * 7
  }
}
