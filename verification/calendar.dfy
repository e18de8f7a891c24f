/**
 * Calendar days as integers and the two weekend-exclusion rules used by the
 * leave counters. Day 0 is 1970-01-01, so `d + 1` is the day after `d`.
 */
module Calendar {

  /** A calendar date as a day number; day 0 is 1970-01-01. */
  type Day = int

  const Sunday := 0
  const Saturday := 6

  /**
   * The day of the week as JavaScript's Date.getDay numbers it
   * (0 = Sunday ... 6 = Saturday). 1970-01-01 was a Thursday (4).
   */
  function Weekday(d: Day): (w: int)
    ensures 0 <= w < 7
  {
    (d + 4) % 7
  }

  /** Which weekdays a counter does not charge. */
  datatype ExclusionPolicy =
    | SundayOnly        // leaveService.calculateWorkingDays
    | SaturdayAndSunday // LeaveApplicationModal.calculateDuration

  predicate Excludes(p: ExclusionPolicy, w: int) {
    match p
    case SundayOnly => w == Sunday
    case SaturdayAndSunday => w == Sunday || w == Saturday
  }

  predicate IsChargeable(p: ExclusionPolicy, d: Day) {
    !Excludes(p, Weekday(d))
  }

  /**
   * The number of chargeable days in the closed range [start, end];
   * zero when the range is empty (end < start).
   */
  function CountChargeable(p: ExclusionPolicy, start: Day, end: Day): (n: nat)
    ensures n <= if end < start then 0 else end - start + 1
    decreases end - start
  {
    if end < start then 0
    else CountChargeable(p, start, end - 1) + (if IsChargeable(p, end) then 1 else 0)
  }

  /** The chargeable days of [start, end], as a set: the reference for CountChargeable. */
  function ChargeableDays(p: ExclusionPolicy, start: Day, end: Day): set<Day> {
    set d | start <= d <= end && IsChargeable(p, d)
  }

  /** The Saturdays of [start, end]. */
  function Saturdays(start: Day, end: Day): set<Day> {
    set d | start <= d <= end && Weekday(d) == Saturday
  }

  /** The counter counts exactly the chargeable days of the range. */
  lemma {:induction false} CountIsCardinality(p: ExclusionPolicy, start: Day, end: Day)
    ensures CountChargeable(p, start, end) == |ChargeableDays(p, start, end)|
    decreases end - start
  {
    if end < start {
      assert ChargeableDays(p, start, end) == {};
    } else {
      CountIsCardinality(p, start, end - 1);
      var before := ChargeableDays(p, start, end - 1);
      if IsChargeable(p, end) {
        assert ChargeableDays(p, start, end) == before + {end};
      } else {
        assert ChargeableDays(p, start, end) == before;
      }
    }
  }

  /**
   * Splitting [start, end] at `mid` (the first day of the second part)
   * splits the count: [start, mid - 1] and [mid, end] add up to the whole.
   */
  lemma {:induction false} CountSplit(p: ExclusionPolicy, start: Day, mid: Day, end: Day)
    requires start <= mid <= end + 1
    ensures CountChargeable(p, start, mid - 1) + CountChargeable(p, mid, end) == CountChargeable(p, start, end)
    decreases end - mid
  {
    if mid <= end {
      CountSplit(p, start, mid, end - 1);
    }
  }

  /**
   * The Sunday-only count is the Saturday-and-Sunday count plus the number
   * of Saturdays in the range; in particular it is never smaller.
   */
  lemma SundayOnlyCountAddsSaturdays(start: Day, end: Day)
    ensures CountChargeable(SundayOnly, start, end)
            == CountChargeable(SaturdayAndSunday, start, end) + |Saturdays(start, end)|
    ensures CountChargeable(SaturdayAndSunday, start, end) <= CountChargeable(SundayOnly, start, end)
  {
    CountIsCardinality(SundayOnly, start, end);
    CountIsCardinality(SaturdayAndSunday, start, end);
    var weekdaysOnly := ChargeableDays(SaturdayAndSunday, start, end);
    var sats := Saturdays(start, end);
    assert ChargeableDays(SundayOnly, start, end) == weekdaysOnly + sats;
    assert weekdaysOnly !! sats;
  }

  /** Consecutive days advance the weekday by one, wrapping after Saturday. */
  lemma NextWeekday(d: Day)
    ensures Weekday(d + 1) == if Weekday(d) == Saturday then Sunday else Weekday(d) + 1
  {
  }

  /** Any seven consecutive days hold six days charged under SundayOnly and five under SaturdayAndSunday. */
  lemma {:induction false} WeekCount(p: ExclusionPolicy, d: Day)
    ensures CountChargeable(p, d, d + 6) == if p == SundayOnly then 6 else 5
  {
    NextWeekday(d); NextWeekday(d + 1); NextWeekday(d + 2);
    NextWeekday(d + 3); NextWeekday(d + 4); NextWeekday(d + 5);
    assert CountChargeable(p, d, d + 6) == CountChargeable(p, d, d + 5) + (if IsChargeable(p, d + 6) then 1 else 0);
    assert CountChargeable(p, d, d + 5) == CountChargeable(p, d, d + 4) + (if IsChargeable(p, d + 5) then 1 else 0);
    assert CountChargeable(p, d, d + 4) == CountChargeable(p, d, d + 3) + (if IsChargeable(p, d + 4) then 1 else 0);
    assert CountChargeable(p, d, d + 3) == CountChargeable(p, d, d + 2) + (if IsChargeable(p, d + 3) then 1 else 0);
    assert CountChargeable(p, d, d + 2) == CountChargeable(p, d, d + 1) + (if IsChargeable(p, d + 2) then 1 else 0);
    assert CountChargeable(p, d, d + 1) == CountChargeable(p, d, d) + (if IsChargeable(p, d + 1) then 1 else 0);
    assert CountChargeable(p, d, d) == if IsChargeable(p, d) then 1 else 0;
  }

  /** n whole weeks hold 6n days charged under SundayOnly and 5n under SaturdayAndSunday. */
  lemma {:induction false} WeeksCount(p: ExclusionPolicy, d: Day, n: nat)
    ensures CountChargeable(p, d, d + 7 * n - 1) == n * (if p == SundayOnly then 6 else 5)
  {
    if n > 0 {
      WeeksCount(p, d, n - 1);
      CountSplit(p, d, d + 7 * (n - 1), d + 7 * n - 1);
      WeekCount(p, d + 7 * (n - 1));
    }
  }

  /** A Monday-to-Friday range is five chargeable days under either policy. */
  lemma {:induction false} MondayToFridayCount(p: ExclusionPolicy, monday: Day)
    requires Weekday(monday) == 1
    ensures CountChargeable(p, monday, monday + 4) == 5
  {
    NextWeekday(monday); NextWeekday(monday + 1); NextWeekday(monday + 2); NextWeekday(monday + 3);
    assert CountChargeable(p, monday, monday + 4) == CountChargeable(p, monday, monday + 3) + 1;
    assert CountChargeable(p, monday, monday + 3) == CountChargeable(p, monday, monday + 2) + 1;
    assert CountChargeable(p, monday, monday + 2) == CountChargeable(p, monday, monday + 1) + 1;
    assert CountChargeable(p, monday, monday + 1) == CountChargeable(p, monday, monday) + 1;
  }

  /** A Saturday-and-Sunday weekend is worth nothing under SaturdayAndSunday and one day under SundayOnly. */
  lemma {:induction false} WeekendCount(saturday: Day)
    requires Weekday(saturday) == Saturday
    ensures CountChargeable(SaturdayAndSunday, saturday, saturday + 1) == 0
    ensures CountChargeable(SundayOnly, saturday, saturday + 1) == 1
  {
    NextWeekday(saturday);
    assert CountChargeable(SaturdayAndSunday, saturday, saturday) == 0;
    assert CountChargeable(SundayOnly, saturday, saturday) == 1;
  }
}
