/**
 * The payroll service: the attendance summary per employee for a period,
 * the payroll_runs insert-or-reuse, the payroll_records upsert keyed by
 * (employee, period), and the inline daily-rate update.
 */
module PayrollService {
  import opened Wrappers
  import opened Calendar
  import opened Seqs

  type EmployeeId = nat
  type RunId = nat
  /** An instant, in milliseconds. */
  type Timestamp = int

  // ---------------------------------------------------------------------------
  // Attendance

  /** An attendance_logs row: who, which shift day, and the clock-in time if there was one. */
  datatype AttendanceRow = AttendanceRow(employeeId: EmployeeId, shiftDate: Day, clockInAt: Option<Timestamp>)

  /** The query's conditions: shift_date within [start, end] and clock_in_at not null. */
  predicate Attended(row: AttendanceRow, start: Day, end: Day) {
    start <= row.shiftDate <= end && row.clockInAt.Some?
  }

  function AttendedTest(start: Day, end: Day): AttendanceRow -> bool {
    (row: AttendanceRow) => Attended(row, start, end)
  }

  /** The rows the attendance query returns. */
  function QueryAttendance(log: seq<AttendanceRow>, start: Day, end: Day): (r: seq<AttendanceRow>)
    ensures forall row :: row in r <==> row in log && start <= row.shiftDate <= end && row.clockInAt.Some?
  {
    Filter(log, AttendedTest(start, end))
  }

  /** The distinct shift dates among an employee's rows. */
  function ShiftDates(rows: seq<AttendanceRow>, e: EmployeeId): set<Day> {
    set row | row in rows && row.employeeId == e :: row.shiftDate
  }

  /** The employees with at least one row. */
  function EmployeesWithRows(rows: seq<AttendanceRow>): set<EmployeeId> {
    set row | row in rows :: row.employeeId
  }

  /** The reference summary: one entry per employee with a row, valued by its number of distinct days. */
  function AttendanceCounts(rows: seq<AttendanceRow>): map<EmployeeId, nat> {
    map e | e in EmployeesWithRows(rows) :: |ShiftDates(rows, e)|
  }

  /** How many of the rows are the employee's. */
  function RowCount(rows: seq<AttendanceRow>, e: EmployeeId): (n: nat)
    ensures n <= |rows|
  {
    if rows == [] then 0
    else RowCount(rows[..|rows| - 1], e) + (if rows[|rows| - 1].employeeId == e then 1 else 0)
  }

  /** Appending one row adds its day to its employee's dates and nothing else. */
  lemma ShiftDatesAppend(rows: seq<AttendanceRow>, row: AttendanceRow, e: EmployeeId)
    ensures ShiftDates(rows + [row], e) == ShiftDates(rows, e) + (if row.employeeId == e then {row.shiftDate} else {})
    ensures EmployeesWithRows(rows + [row]) == EmployeesWithRows(rows) + {row.employeeId}
  {
    var both := rows + [row];
    assert forall x :: x in both <==> x in rows || x == row;
  }

  /** The dictionary the first loop builds: each employee's Set of days. */
  function DaySets(rows: seq<AttendanceRow>): map<EmployeeId, set<Day>> {
    map e | e in EmployeesWithRows(rows) :: ShiftDates(rows, e)
  }

  /** One more row adds its day to its employee's Set, creating the Set if needed. */
  lemma DaySetsAppend(rows: seq<AttendanceRow>, row: AttendanceRow)
    ensures DaySets(rows + [row]) ==
              DaySets(rows)[row.employeeId :=
                (if row.employeeId in DaySets(rows) then DaySets(rows)[row.employeeId] else {}) + {row.shiftDate}]
  {
    var before, after := DaySets(rows), DaySets(rows + [row]);
    ShiftDatesAppend(rows, row, row.employeeId);
    forall e | e in after
      ensures e in before || e == row.employeeId
      ensures e != row.employeeId ==> after[e] == before[e]
    {
      ShiftDatesAppend(rows, row, e);
    }
    if row.employeeId !in before {
      assert ShiftDates(rows, row.employeeId) == {};
    }
  }

  /** Replacing each day Set by its size gives the reference summary. */
  lemma CountsOfDaySets(rows: seq<AttendanceRow>)
    ensures AttendanceCounts(rows) == map e | e in DaySets(rows) :: |DaySets(rows)[e]|
  {
  }

  /**
   * fetchAttendanceCounts: a Set of days per employee filled row by row, then
   * each Set replaced by its size.
   */
  method FetchAttendanceCounts(log: seq<AttendanceRow>, start: Day, end: Day) returns (normalized: map<EmployeeId, nat>)
    ensures normalized == AttendanceCounts(QueryAttendance(log, start, end))
  {
    var data := QueryAttendance(log, start, end);
    var counts := CollectDays(data);
    normalized := Normalize(counts);
    CountsOfDaySets(data);
  }

  /** The `for (const row of data)` loop: each row's day added to its employee's Set. */
  method CollectDays(data: seq<AttendanceRow>) returns (counts: map<EmployeeId, set<Day>>)
    ensures counts == DaySets(data)
  {
    counts := map[];
    var i := 0;
    while i < |data|
      invariant 0 <= i <= |data|
      invariant counts == DaySets(data[..i])
    {
      var row := data[i];
      assert data[..i + 1] == data[..i] + [row];
      DaySetsAppend(data[..i], row);
      if row.employeeId !in counts {
        counts := counts[row.employeeId := {}];
      }
      counts := counts[row.employeeId := counts[row.employeeId] + {row.shiftDate}];
      i := i + 1;
    }
    assert data[..i] == data;
  }

  /** The `Object.keys(counts).forEach` step: each key's Set replaced by its size, key by key. */
  method Normalize(counts: map<EmployeeId, set<Day>>) returns (normalized: map<EmployeeId, nat>)
    ensures normalized == map k | k in counts :: |counts[k]|
  {
    normalized := map[];
    var pending := counts.Keys;
    while pending != {}
      invariant pending <= counts.Keys
      invariant normalized.Keys == counts.Keys - pending
      invariant forall k :: k in normalized ==> normalized[k] == |counts[k]|
      decreases pending
    {
      var k :| k in pending;
      normalized := normalized[k := |counts[k]|];
      pending := pending - {k};
    }
  }

  /** An employee with rows has at least one and at most that many distinct days. */
  lemma {:induction false} AttendanceCountBounds(rows: seq<AttendanceRow>, e: EmployeeId)
    requires e in EmployeesWithRows(rows)
    ensures 1 <= AttendanceCounts(rows)[e] <= RowCount(rows, e)
  {
    var row :| row in rows && row.employeeId == e;
    assert row.shiftDate in ShiftDates(rows, e);
    ShiftDatesWithinRowCount(rows, e);
  }

  lemma {:induction false} ShiftDatesWithinRowCount(rows: seq<AttendanceRow>, e: EmployeeId)
    ensures |ShiftDates(rows, e)| <= RowCount(rows, e)
  {
    if rows == [] {
      assert ShiftDates(rows, e) == {};
    } else {
      var init := rows[..|rows| - 1];
      var last := rows[|rows| - 1];
      assert rows == init + [last];
      ShiftDatesAppend(init, last, e);
      ShiftDatesWithinRowCount(init, e);
    }
  }

  /** A row repeating an employee's day already present leaves the whole summary as it was. */
  lemma SameDayCountsOnce(rows: seq<AttendanceRow>, row: AttendanceRow, earlier: AttendanceRow)
    requires earlier in rows && earlier.employeeId == row.employeeId && earlier.shiftDate == row.shiftDate
    ensures AttendanceCounts(rows + [row]) == AttendanceCounts(rows)
  {
    forall e | e in EmployeesWithRows(rows)
      ensures ShiftDates(rows + [row], e) == ShiftDates(rows, e)
    {
      ShiftDatesAppend(rows, row, e);
    }
    ShiftDatesAppend(rows, row, row.employeeId);
  }

  // ---------------------------------------------------------------------------
  // Runs and records

  /** A payroll_runs row. */
  datatype PayrollRun = PayrollRun(id: RunId, periodStart: Day, periodEnd: Day)

  /** What the store answers to the run insert (a duplicate period is refused by the table's constraint). */
  datatype RunInsertOutcome = RunInsertFailed | RunInserted(id: RunId)

  predicate SamePeriod(run: PayrollRun, start: Day, end: Day) {
    run.periodStart == start && run.periodEnd == end
  }

  function SamePeriodTest(start: Day, end: Day): PayrollRun -> bool {
    (run: PayrollRun) => SamePeriod(run, start, end)
  }

  /**
   * The lookup `.eq(period_start).eq(period_end).maybeSingle()` and `?.id ?? null`:
   * one matching run gives its id; none gives null; several make maybeSingle
   * fail, and since that error is not read, null as well.
   */
  function ExistingRunId(runs: seq<PayrollRun>, start: Day, end: Day): (r: Option<RunId>)
    ensures r.Some? ==> exists run :: run in runs && SamePeriod(run, start, end) && run.id == r.value
    ensures (forall run :: run in runs ==> !SamePeriod(run, start, end)) ==> r.None?
    ensures |Filter(runs, SamePeriodTest(start, end))| == 1 ==> r == Some(Filter(runs, SamePeriodTest(start, end))[0].id)
    ensures |Filter(runs, SamePeriodTest(start, end))| >= 2 ==> r.None?
  {
    var matches := Filter(runs, SamePeriodTest(start, end));
    if |matches| == 1 then
      assert matches[0] in matches;
      Some(matches[0].id)
    else None
  }

  /** Two runs recorded for the same period make the lookup give null. */
  lemma DuplicatePeriodGivesNoRun(runs: seq<PayrollRun>, i: nat, j: nat)
    requires i < j < |runs| && SamePeriod(runs[i], runs[j].periodStart, runs[j].periodEnd)
    ensures ExistingRunId(runs, runs[j].periodStart, runs[j].periodEnd).None?
  {
    FilterTwoHits(runs, SamePeriodTest(runs[j].periodStart, runs[j].periodEnd), i, j);
  }

  /** A payroll_records row. */
  datatype PayStatus = Paid
  datatype PayrollRecord = PayrollRecord(
    employeeId: EmployeeId, periodStart: Day, periodEnd: Day, grossPay: int, status: PayStatus, paidAt: Timestamp)

  /** The upsert's conflict key: employee_id, period_start, period_end. */
  type RecordKey = (EmployeeId, Day, Day)

  function KeyOf(r: PayrollRecord): RecordKey {
    (r.employeeId, r.periodStart, r.periodEnd)
  }

  /** Every stored record sits under its own conflict key, so there is at most one per key. */
  predicate KeyedByConflictKey(records: map<RecordKey, PayrollRecord>) {
    forall k :: k in records ==> KeyOf(records[k]) == k
  }

  /** No two records of the batch share a conflict key (Postgres refuses such a batch). */
  predicate DistinctKeys(batch: seq<PayrollRecord>) {
    forall i, j :: 0 <= i < j < |batch| ==> KeyOf(batch[i]) != KeyOf(batch[j])
  }

  /** The table after the batch is written: each record inserted, or replacing the one with its key. */
  function UpsertAll(records: map<RecordKey, PayrollRecord>, batch: seq<PayrollRecord>): map<RecordKey, PayrollRecord> {
    if batch == [] then records
    else UpsertAll(records, batch[..|batch| - 1])[KeyOf(batch[|batch| - 1]) := batch[|batch| - 1]]
  }

  /** The upsert's keys: the table's keys and the batch's. */
  lemma {:induction false} UpsertAllKeys(records: map<RecordKey, PayrollRecord>, batch: seq<PayrollRecord>)
    ensures UpsertAll(records, batch).Keys == records.Keys + set r | r in batch :: KeyOf(r)
  {
    if batch != [] {
      var init := batch[..|batch| - 1];
      UpsertAllKeys(records, init);
      assert forall r :: r in batch <==> r in init || r == batch[|batch| - 1];
    }
  }

  /** A record whose key the batch does not name is left as it was. */
  lemma {:induction false} UpsertAllKeepsUntouched(records: map<RecordKey, PayrollRecord>, batch: seq<PayrollRecord>, k: RecordKey)
    requires k in records && forall r :: r in batch ==> KeyOf(r) != k
    ensures k in UpsertAll(records, batch) && UpsertAll(records, batch)[k] == records[k]
  {
    if batch != [] {
      var init := batch[..|batch| - 1];
      assert forall r :: r in init ==> r in batch;
      assert batch[|batch| - 1] in batch;
      UpsertAllKeepsUntouched(records, init, k);
    }
  }

  /** A batch record whose key no later batch record repeats is what the table holds under that key. */
  lemma {:induction false} UpsertAllLastWriteWins(records: map<RecordKey, PayrollRecord>, batch: seq<PayrollRecord>, i: nat)
    requires i < |batch| && forall j :: i < j < |batch| ==> KeyOf(batch[j]) != KeyOf(batch[i])
    ensures KeyOf(batch[i]) in UpsertAll(records, batch) && UpsertAll(records, batch)[KeyOf(batch[i])] == batch[i]
  {
    if i < |batch| - 1 {
      var init := batch[..|batch| - 1];
      assert init[i] == batch[i];
      assert forall j :: i < j < |init| ==> init[j] == batch[j];
      UpsertAllLastWriteWins(records, init, i);
    }
  }

  /** Upserting keeps every record stored under its own conflict key. */
  lemma {:induction false} UpsertAllKeyed(records: map<RecordKey, PayrollRecord>, batch: seq<PayrollRecord>)
    requires KeyedByConflictKey(records)
    ensures KeyedByConflictKey(UpsertAll(records, batch))
  {
    if batch != [] {
      UpsertAllKeyed(records, batch[..|batch| - 1]);
    }
  }

  /** Writing the same batch twice leaves what writing it once left. */
  lemma UpsertAllIdempotent(records: map<RecordKey, PayrollRecord>, batch: seq<PayrollRecord>)
    requires DistinctKeys(batch)
    ensures UpsertAll(UpsertAll(records, batch), batch) == UpsertAll(records, batch)
  {
    var once := UpsertAll(records, batch);
    var twice := UpsertAll(once, batch);
    UpsertAllKeys(records, batch);
    UpsertAllKeys(once, batch);
    forall k | k in twice
      ensures twice[k] == once[k]
    {
      if r :| r in batch && KeyOf(r) == k {
        var i :| 0 <= i < |batch| && batch[i] == r;
        UpsertAllLastWriteWins(records, batch, i);
        UpsertAllLastWriteWins(once, batch, i);
      } else {
        UpsertAllKeepsUntouched(once, batch, k);
      }
    }
  }

  /**
   * The payroll tables of the hosted database: the payroll_runs rows, the
   * payroll_records rows keyed by their conflict key, and each employee's
   * daily_rate column.
   */
  class PayrollStore {
    var runs: seq<PayrollRun>
    var records: map<RecordKey, PayrollRecord>
    var dailyRates: map<EmployeeId, int>

    constructor (runs: seq<PayrollRun>, records: map<RecordKey, PayrollRecord>, dailyRates: map<EmployeeId, int>)
      ensures this.runs == runs && this.records == records && this.dailyRates == dailyRates
    {
      this.runs, this.records, this.dailyRates := runs, records, dailyRates;
    }

    /**
     * upsertPayrollRun: a successful insert with a truthy id returns that id;
     * otherwise the run with the same period is looked up.
     */
    method UpsertPayrollRun(start: Day, end: Day, outcome: RunInsertOutcome) returns (runId: Option<RunId>)
      modifies this`runs
      ensures outcome.RunInsertFailed? ==> runs == old(runs)
      ensures outcome.RunInserted? ==> runs == old(runs) + [PayrollRun(outcome.id, start, end)]
      ensures outcome.RunInserted? && outcome.id != 0 ==> runId == Some(outcome.id)
      ensures outcome.RunInsertFailed? || outcome.id == 0 ==> runId == ExistingRunId(runs, start, end)
    {
      if outcome.RunInserted? {
        runs := runs + [PayrollRun(outcome.id, start, end)];
        if outcome.id != 0 {
          return Some(outcome.id);
        }
      }
      runId := ExistingRunId(runs, start, end);
    }

    /**
     * upsertPayrollRecords: the batch lands in the table keyed by its conflict
     * key, unless the write fails or two records share a key, in which case
     * nothing changes and the caller sees the error.
     */
    method UpsertPayrollRecords(batch: seq<PayrollRecord>, writeOk: bool) returns (ok: bool)
      modifies this`records
      ensures ok <==> writeOk && DistinctKeys(batch)
      ensures ok ==> records == UpsertAll(old(records), batch)
      ensures !ok ==> records == old(records)
    {
      if !writeOk || !DistinctKeys(batch) {
        return false;
      }
      records := UpsertAll(records, batch);
      ok := true;
    }

    /** updateEmployeeDailyRate: set daily_rate on the row with that id; no row, no change. */
    method UpdateEmployeeDailyRate(employeeId: EmployeeId, rate: int, writeOk: bool) returns (ok: bool)
      modifies this`dailyRates
      ensures ok == writeOk
      ensures writeOk && employeeId in old(dailyRates) ==> dailyRates == old(dailyRates)[employeeId := rate]
      ensures !writeOk || employeeId !in old(dailyRates) ==> dailyRates == old(dailyRates)
    {
      if writeOk && employeeId in dailyRates {
        dailyRates := dailyRates[employeeId := rate];
      }
      ok := writeOk;
    }
  }
}
