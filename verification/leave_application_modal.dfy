/**
 * The leave application dialog: its own duration counter, which skips both
 * Saturdays and Sundays, and the "remaining after" summary.
 */
module LeaveApplicationModal {
  import opened Wrappers
  import opened Calendar

  /**
   * calculateDuration: 0 when a date is missing or the range is empty,
   * otherwise the number of days of [start, end] that fall on Monday to Friday.
   */
  method CalculateDuration(start: Option<Day>, end: Option<Day>) returns (count: nat)
    ensures start.None? || end.None? ==> count == 0
    ensures start.Some? && end.Some? && end.value < start.value ==> count == 0
    ensures start.Some? && end.Some? ==>
              count == CountChargeable(SaturdayAndSunday, start.value, end.value)
  {
    if start.None? || end.None? {
      return 0;
    }
    var startDate, endDate := start.value, end.value;
    if endDate < startDate {
      return 0;
    }
    count := 0;
    var currentDate := startDate;
    while currentDate <= endDate
      invariant startDate <= currentDate <= endDate + 1
      invariant count == CountChargeable(SaturdayAndSunday, startDate, currentDate - 1)
    {
      var day := Weekday(currentDate);
      if day != Sunday && day != Saturday {
        count := count + 1;
      }
      currentDate := currentDate + 1;
    }
  }

  /** "Remaining after": Math.max(0, remainingBalance - requestedDays). */
  function RemainingAfter(remainingBalance: int, requestedDays: nat): (r: int)
    ensures r >= 0
    ensures remainingBalance >= 0 ==> r <= remainingBalance
    ensures requestedDays <= remainingBalance ==> r == remainingBalance - requestedDays
    ensures requestedDays > remainingBalance ==> r == 0
  {
    if remainingBalance - requestedDays > 0 then remainingBalance - requestedDays else 0
  }

  /** The duration summary is shown only when both dates are set and the count is positive. */
  predicate ShowsDurationSummary(start: Option<Day>, end: Option<Day>, requestedDays: nat) {
    start.Some? && end.Some? && requestedDays > 0
  }

  /** When the summary shows, the range is non-empty and holds at least one weekday. */
  lemma SummaryImpliesWeekdayInRange(start: Day, end: Day)
    requires ShowsDurationSummary(Some(start), Some(end), CountChargeable(SaturdayAndSunday, start, end))
    ensures start <= end
    ensures exists d :: start <= d <= end && Weekday(d) != Sunday && Weekday(d) != Saturday
  {
    CountIsCardinality(SaturdayAndSunday, start, end);
    var d :| d in ChargeableDays(SaturdayAndSunday, start, end);
    assert start <= d <= end && IsChargeable(SaturdayAndSunday, d);
  }

  /** A weekend-only range gives no summary. */
  lemma WeekendGivesNoSummary(saturday: Day)
    requires Weekday(saturday) == Saturday
    ensures !ShowsDurationSummary(Some(saturday), Some(saturday + 1),
                                  CountChargeable(SaturdayAndSunday, saturday, saturday + 1))
  {
    WeekendCount(saturday);
  }
}
