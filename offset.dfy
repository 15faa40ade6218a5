/**
 * The configured offset that `cronCheckJob` adds to each boundary's fire time
 * (src/ical-events.ts:124-134 for a start, 167-177 for an end).
 *
 * Times are whole seconds.  The source edits a `Date` through `setSeconds`,
 * `setMinutes` or `setDate` by `offset` units; in seconds that is an
 * addition of `offset` times the length of the unit.  The unit is chosen by
 * `offsetUnits`: 'seconds' and 'days' mean what they say, while 'hours' goes
 * through `setMinutes` exactly like the fall-back branch, so an offset in
 * hours is applied as that many MINUTES.  This quirk is modelled as written.
 */
module Offset {

  type Time = int

  const SecondsPerMinute: int := 60
  const SecondsPerDay: int := 86400

  /**
   * The branch of the `offsetUnits` if-chain a setting selects: 'seconds',
   * 'hours' and 'days' have their own branch; every other setting, 'minutes'
   * included, falls through to the last one.
   */
  datatype OffsetUnit = Seconds | Hours | Days | Minutes

  function UnitOf(units: string): OffsetUnit
  {
    if units == "seconds" then Seconds
    else if units == "hours" then Hours
    else if units == "days" then Days
    else Minutes
  }

  /** How many seconds one offset unit moves a time, as the source applies it. */
  function UnitSeconds(unit: OffsetUnit): (r: int)
    ensures r > 0
  {
    match unit
    case Seconds => 1
    case Days => SecondsPerDay
    case Hours => SecondsPerMinute  // setMinutes
    case Minutes => SecondsPerMinute
  }

  /**
   * The fire time after the offset is applied.  A zero offset is falsy in
   * the source, which then leaves the time alone.
   */
  function Shift(t: Time, offset: int, unit: OffsetUnit): (r: Time)
    ensures offset == 0 ==> r == t
  {
    if offset == 0 then t
    else match unit
      case Seconds => t + offset
      case Hours => t + offset * SecondsPerMinute
      case Days => t + offset * SecondsPerDay
      case Minutes => t + offset * SecondsPerMinute
  }

  /** The shift moves a time by the offset counted in units of the configured length. */
  lemma ShiftAdds(t: Time, offset: int, unit: OffsetUnit)
    ensures Shift(t, offset, unit) == t + offset * UnitSeconds(unit)
  {
  }

  /** Shifting keeps the distance between times, so a later boundary still fires later. */
  lemma ShiftKeepsOrder(t1: Time, t2: Time, offset: int, unit: OffsetUnit)
    ensures Shift(t1, offset, unit) - Shift(t2, offset, unit) == t1 - t2
    ensures t1 < t2 <==> Shift(t1, offset, unit) < Shift(t2, offset, unit)
  {
    ShiftAdds(t1, offset, unit);
    ShiftAdds(t2, offset, unit);
  }

  /** An offset in 'hours' moves a time by minutes, exactly as 'minutes' does. */
  lemma HoursActAsMinutes(t: Time, offset: int)
    ensures Shift(t, offset, UnitOf("hours")) == Shift(t, offset, UnitOf("minutes")) == t + offset * SecondsPerMinute
    ensures offset != 0 ==> Shift(t, offset, UnitOf("hours")) != t + offset * 3600
  {
    ShiftAdds(t, offset, Hours);
    ShiftAdds(t, offset, Minutes);
  }
}
