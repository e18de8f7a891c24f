/**
 * The payroll page: the search over the loaded employees, the row selection,
 * the gross-pay preview and its total, and the handlers that save a daily
 * rate and process a payroll run. Amounts are whole numbers (see README).
 */
module PayrollManagement {
  import opened Wrappers
  import opened Calendar
  import opened Text
  import opened Seqs
  import opened PayrollService

  // ---------------------------------------------------------------------------
  // Employees and the search

  /** A daily_rate as the page holds it: the number loaded with the row, or text typed since. */
  datatype RateField = Stored(value: Option<int>) | Typed(text: string)

  /** Number(daily_rate): Number(null) is 0; typed text goes through NumberValue (None is NaN). */
  function RateNumber(f: RateField): Option<int> {
    match f
    case Stored(v) => if v.Some? then v else Some(0)
    case Typed(t) => NumberValue(t)
  }

  /** `Number(e.daily_rate) || 0`: a NaN rate counts as 0. */
  function RateOrZero(f: RateField): (rate: int)
    ensures RateNumber(f).Some? ==> rate == RateNumber(f).value
    ensures RateNumber(f).None? ==> rate == 0
  {
    var n := RateNumber(f);
    if n.Some? then n.value else 0
  }

  /** A row of the payroll employee query. */
  datatype PayrollEmployee = PayrollEmployee(
    id: EmployeeId,
    fullName: Option<string>,
    department: Option<string>,
    position: Option<string>,
    dailyRate: RateField)

  /** `(field || "")`. */
  function TextOf(v: Option<string>): string {
    if v.Some? then v.value else ""
  }

  /** The name, department or position, lower-cased, contains the query. */
  predicate MatchesQuery(e: PayrollEmployee, q: string) {
    Contains(ToLower(TextOf(e.fullName)), q) || Contains(ToLower(TextOf(e.department)), q)
    || Contains(ToLower(TextOf(e.position)), q)
  }

  function MatchesTest(q: string): PayrollEmployee -> bool {
    (e: PayrollEmployee) => MatchesQuery(e, q)
  }

  /** The query the search uses: the search term trimmed and lower-cased. */
  function Query(searchTerm: string): (q: string)
    ensures q == "" <==> AllWhitespace(searchTerm)
  {
    TrimBlank(searchTerm);
    ToLower(Trim(searchTerm))
  }

  /** filteredEmployees: a blank query keeps the list; otherwise the matching employees, in order. */
  function FilteredEmployees(employees: seq<PayrollEmployee>, searchTerm: string): (r: seq<PayrollEmployee>)
    ensures AllWhitespace(searchTerm) ==> r == employees
    ensures !AllWhitespace(searchTerm) ==>
              forall e :: e in r <==> e in employees && MatchesQuery(e, Query(searchTerm))
  {
    var q := Query(searchTerm);
    if q == "" then employees else Filter(employees, MatchesTest(q))
  }

  /** The search keeps the list's order: searching a concatenation concatenates the results. */
  lemma FilteredEmployeesKeepsOrder(a: seq<PayrollEmployee>, b: seq<PayrollEmployee>, searchTerm: string)
    ensures FilteredEmployees(a + b, searchTerm) == FilteredEmployees(a, searchTerm) + FilteredEmployees(b, searchTerm)
  {
    if !AllWhitespace(searchTerm) {
      FilterConcat(a, b, MatchesTest(Query(searchTerm)));
    }
  }

  /** `filteredEmployees.map(e => e.id)`. */
  function IdsOf(employees: seq<PayrollEmployee>): (ids: seq<EmployeeId>)
    ensures |ids| == |employees|
    ensures forall i :: 0 <= i < |ids| ==> ids[i] == employees[i].id
  {
    if employees == [] then [] else [employees[0].id] + IdsOf(employees[1..])
  }

  // ---------------------------------------------------------------------------
  // Selection

  /** toggleRow's updater: drop the id when present, append it otherwise. */
  function WithRowToggled(prev: seq<EmployeeId>, id: EmployeeId): (r: seq<EmployeeId>)
    ensures id in r <==> id !in prev
    ensures forall x :: x != id ==> (x in r <==> x in prev)
    ensures NoDuplicates(prev) ==> NoDuplicates(r)
  {
    if id in prev then
      assert NoDuplicates(prev) ==> NoDuplicates(Filter(prev, (x: EmployeeId) => x != id)) by {
        if NoDuplicates(prev) {
          FilterNoDuplicates(prev, (x: EmployeeId) => x != id);
        }
      }
      Filter(prev, (x: EmployeeId) => x != id)
    else
      assert NoDuplicates(prev) ==> NoDuplicates(prev + [id]);
      prev + [id]
  }

  /** allVisibleSelected: some row is visible and every visible id is selected. */
  predicate AllVisibleSelected(visible: seq<EmployeeId>, selected: seq<EmployeeId>) {
    |visible| > 0 && forall id :: id in visible ==> id in selected
  }

  /**
   * toggleAll's updater: when every visible row is selected, drop the visible
   * ids; otherwise add them, keeping one copy of each id.
   */
  function WithAllToggled(prev: seq<EmployeeId>, visible: seq<EmployeeId>): (r: seq<EmployeeId>)
    ensures AllVisibleSelected(visible, prev) ==> forall x :: x in r <==> x in prev && x !in visible
    ensures !AllVisibleSelected(visible, prev) ==> forall x :: x in r <==> x in prev || x in visible
    ensures !AllVisibleSelected(visible, prev) ==> NoDuplicates(r)
    ensures NoDuplicates(prev) ==> NoDuplicates(r)
  {
    if AllVisibleSelected(visible, prev) then
      assert NoDuplicates(prev) ==> NoDuplicates(Filter(prev, (x: EmployeeId) => x !in visible)) by {
        if NoDuplicates(prev) {
          FilterNoDuplicates(prev, (x: EmployeeId) => x !in visible);
        }
      }
      Filter(prev, (x: EmployeeId) => x !in visible)
    else Dedup(prev + visible)
  }

  /** With rows visible, toggling all either clears every visible row or selects every one. */
  lemma ToggleAllFlips(prev: seq<EmployeeId>, visible: seq<EmployeeId>)
    requires |visible| > 0
    ensures AllVisibleSelected(visible, prev) ==> forall id :: id in visible ==> id !in WithAllToggled(prev, visible)
    ensures !AllVisibleSelected(visible, prev) ==> AllVisibleSelected(visible, WithAllToggled(prev, visible))
  {
  }

  /**
   * Toggling all twice from a partial selection is not a no-op: the visible
   * rows that were selected before end up unselected.
   */
  lemma ToggleAllTwiceDropsVisible(prev: seq<EmployeeId>, visible: seq<EmployeeId>)
    requires |visible| > 0 && !AllVisibleSelected(visible, prev)
    ensures forall x :: x in WithAllToggled(WithAllToggled(prev, visible), visible) <==> x in prev && x !in visible
  {
    ToggleAllFlips(prev, visible);
  }

  // ---------------------------------------------------------------------------
  // Preview and total

  /** A preview row: the employee with the days present and the gross pay. */
  datatype PreviewRow = PreviewRow(employee: PayrollEmployee, presentDays: nat, grossPay: int)

  /** `attendanceCounts[e.id] || 0`. */
  function PresentDays(counts: map<EmployeeId, nat>, id: EmployeeId): (n: nat)
    ensures id !in counts ==> n == 0
    ensures id in counts ==> n == counts[id]
  {
    if id in counts then counts[id] else 0
  }

  /** rowsWithPreview: one row per visible employee, in order, priced at days present times the rate. */
  function RowsWithPreview(filtered: seq<PayrollEmployee>, counts: map<EmployeeId, nat>): (r: seq<PreviewRow>)
    ensures |r| == |filtered|
    ensures forall i :: 0 <= i < |r| ==>
              && r[i].employee == filtered[i]
              && r[i].presentDays == PresentDays(counts, filtered[i].id)
              && r[i].grossPay == r[i].presentDays * RateOrZero(filtered[i].dailyRate)
  {
    if filtered == [] then []
    else
      var e := filtered[0];
      var days := PresentDays(counts, e.id);
      [PreviewRow(e, days, days * RateOrZero(e.dailyRate))] + RowsWithPreview(filtered[1..], counts)
  }

  /** A visible employee without attendance in the period is previewed at zero pay. */
  lemma AbsentEmployeeEarnsNothing(filtered: seq<PayrollEmployee>, counts: map<EmployeeId, nat>, i: nat)
    requires i < |filtered| && filtered[i].id !in counts
    ensures RowsWithPreview(filtered, counts)[i].grossPay == 0
  {
    var row := RowsWithPreview(filtered, counts)[i];
    assert row.presentDays == 0;
    assert row.grossPay == 0 * RateOrZero(filtered[i].dailyRate);
  }

  function SelectedTest(selected: seq<EmployeeId>): PreviewRow -> bool {
    (row: PreviewRow) => row.employee.id in selected
  }

  /** The preview rows whose employee is selected, in order. */
  function SelectedRows(rows: seq<PreviewRow>, selected: seq<EmployeeId>): (r: seq<PreviewRow>)
    ensures forall row :: row in r <==> row in rows && row.employee.id in selected
  {
    Filter(rows, SelectedTest(selected))
  }

  /** The sum of the rows' gross pay. */
  function SumGross(rows: seq<PreviewRow>): int {
    if rows == [] then 0 else rows[0].grossPay + SumGross(rows[1..])
  }

  lemma {:induction false} SumGrossConcat(a: seq<PreviewRow>, b: seq<PreviewRow>)
    ensures SumGross(a + b) == SumGross(a) + SumGross(b)
  {
    if a == [] {
      assert a + b == b;
    } else {
      assert (a + b)[1..] == a[1..] + b;
      SumGrossConcat(a[1..], b);
    }
  }

  /** totalGross: the gross pay summed over the selected preview rows only. */
  function TotalGross(rows: seq<PreviewRow>, selected: seq<EmployeeId>): (total: int)
    ensures (forall row :: row in rows ==> row.grossPay >= 0) ==> total >= 0
  {
    NonNegativeSum(SelectedRows(rows, selected));
    SumGross(SelectedRows(rows, selected))
  }

  lemma {:induction false} NonNegativeSum(rows: seq<PreviewRow>)
    ensures (forall row :: row in rows ==> row.grossPay >= 0) ==> SumGross(rows) >= 0
  {
    if rows != [] {
      NonNegativeSum(rows[1..]);
      assert forall row :: row in rows[1..] ==> row in rows;
    }
  }

  /** The total of a list is the total of its parts, so rows that are not selected add nothing. */
  lemma {:induction false} TotalGrossSplits(a: seq<PreviewRow>, b: seq<PreviewRow>, selected: seq<EmployeeId>)
    ensures TotalGross(a + b, selected) == TotalGross(a, selected) + TotalGross(b, selected)
  {
    FilterConcat(a, b, SelectedTest(selected));
    SumGrossConcat(SelectedRows(a, selected), SelectedRows(b, selected));
  }

  /** A preview row turned into a payroll_records row for the period. */
  function RecordFor(row: PreviewRow, start: Day, end: Day, paidAt: Timestamp): PayrollRecord {
    PayrollRecord(row.employee.id, start, end, row.grossPay, Paid, paidAt)
  }

  /** The records handleProcessPayroll builds: one "Paid" record per selected preview row, in order. */
  function BuildRecords(rows: seq<PreviewRow>, start: Day, end: Day, paidAt: Timestamp): (r: seq<PayrollRecord>)
    ensures |r| == |rows|
    ensures forall i :: 0 <= i < |r| ==>
              && r[i].employeeId == rows[i].employee.id && r[i].grossPay == rows[i].grossPay
              && r[i].periodStart == start && r[i].periodEnd == end && r[i].status == Paid
              && r[i].paidAt == paidAt
  {
    if rows == [] then [] else [RecordFor(rows[0], start, end, paidAt)] + BuildRecords(rows[1..], start, end, paidAt)
  }

  function SumRecordGross(records: seq<PayrollRecord>): int {
    if records == [] then 0 else records[0].grossPay + SumRecordGross(records[1..])
  }

  /** The records written carry, in total, exactly the total the page showed for the selection. */
  lemma {:induction false} RecordsAddUpToTotal(rows: seq<PreviewRow>, start: Day, end: Day, paidAt: Timestamp)
    ensures SumRecordGross(BuildRecords(rows, start, end, paidAt)) == SumGross(rows)
  {
    if rows != [] {
      RecordsAddUpToTotal(rows[1..], start, end, paidAt);
    }
  }

  /** Rows of distinct employees give records with distinct conflict keys, so the upsert accepts them. */
  lemma RecordsHaveDistinctKeys(rows: seq<PreviewRow>, start: Day, end: Day, paidAt: Timestamp)
    requires forall i, j :: 0 <= i < j < |rows| ==> rows[i].employee.id != rows[j].employee.id
    ensures DistinctKeys(BuildRecords(rows, start, end, paidAt))
  {
  }

  /**
   * Records are built from the visible rows only: a selected employee the
   * search hides (absent from `filtered`) gets no record.
   */
  lemma HiddenSelectionGetsNoRecord(
    filtered: seq<PayrollEmployee>, counts: map<EmployeeId, nat>,
    selected: seq<EmployeeId>, start: Day, end: Day, paidAt: Timestamp, id: EmployeeId)
    requires forall e :: e in filtered ==> e.id != id
    ensures forall rec :: rec in BuildRecords(SelectedRows(RowsWithPreview(filtered, counts), selected), start, end, paidAt)
              ==> rec.employeeId != id
  {
    var preview := RowsWithPreview(filtered, counts);
    var chosen := SelectedRows(preview, selected);
    var records := BuildRecords(chosen, start, end, paidAt);
    forall i | 0 <= i < |records|
      ensures records[i].employeeId != id
    {
      assert chosen[i] in preview;
      var k :| 0 <= k < |preview| && preview[k] == chosen[i];
      assert filtered[k] in filtered;
    }
  }

  /** employees.find(e => e.id === id). */
  function FirstWithId(employees: seq<PayrollEmployee>, id: EmployeeId): (r: Option<PayrollEmployee>)
    ensures r.None? <==> forall e :: e in employees ==> e.id != id
    ensures r.Some? ==> exists i :: 0 <= i < |employees| && employees[i] == r.value && r.value.id == id
                                    && forall j :: 0 <= j < i ==> employees[j].id != id
  {
    if employees == [] then None
    else if employees[0].id == id then
      assert employees[0] == employees[0];
      Some(employees[0])
    else
      var rest := FirstWithId(employees[1..], id);
      if rest.Some? then
        assert forall j :: 1 <= j < |employees| ==> employees[j] == employees[1..][j - 1];
        rest
      else
        rest
  }

  /** handleRateChange's updater: the typed text becomes the rate of the employees with that id. */
  function WithRateTyped(employees: seq<PayrollEmployee>, id: EmployeeId, text: string): (r: seq<PayrollEmployee>)
    ensures |r| == |employees|
    ensures forall i :: 0 <= i < |r| && employees[i].id != id ==> r[i] == employees[i]
    ensures forall i :: 0 <= i < |r| && employees[i].id == id ==> r[i] == employees[i].(dailyRate := Typed(text))
  {
    if employees == [] then []
    else [if employees[0].id == id then employees[0].(dailyRate := Typed(text)) else employees[0]]
         + WithRateTyped(employees[1..], id, text)
  }

  // ---------------------------------------------------------------------------
  // The page

  /** The message processing leaves under the button. */
  datatype ProcessMessage =
    | NoMessage
    | SelectDates            // "Please select dates."
    | SelectEmployee         // "Select at least 1 employee."
    | RunSaved(runId: Option<RunId>)
    | ProcessFailed

  /** The error shown next to a rate. */
  datatype RateError = NoRateError | InvalidRate | SaveFailed

  class PayrollPage {
    const store: PayrollStore
    var employees: seq<PayrollEmployee>
    var attendanceCounts: map<EmployeeId, nat>
    var searchTerm: string
    var startDate: Option<Day>
    var endDate: Option<Day>
    var selectedEmployeeIds: seq<EmployeeId>
    var processing: bool
    var processMsg: ProcessMessage
    var rateErrors: map<EmployeeId, RateError>

    /** The preview rows for the current search and attendance. */
    function Preview(): seq<PreviewRow>
      reads this`employees, this`searchTerm, this`attendanceCounts
    {
      RowsWithPreview(FilteredEmployees(employees, searchTerm), attendanceCounts)
    }

    /** The page after the employees load, with the default period 2025-12-01 to 2025-12-31. */
    constructor (store: PayrollStore, employees: seq<PayrollEmployee>)
      ensures this.store == store && this.employees == employees
      ensures attendanceCounts == map[] && searchTerm == "" && selectedEmployeeIds == []
      ensures startDate == Some(20423) && endDate == Some(20453)
      ensures !processing && processMsg == NoMessage && rateErrors == map[]
    {
      this.store := store;
      this.employees := employees;
      attendanceCounts, searchTerm, selectedEmployeeIds := map[], "", [];
      startDate, endDate := Some(20423), Some(20453);
      processing, processMsg, rateErrors := false, NoMessage, map[];
    }

    method SetSearchTerm(term: string)
      modifies this`searchTerm
      ensures searchTerm == term
    {
      searchTerm := term;
    }

    /** The period inputs; an emptied input is None. */
    method SetPeriod(start: Option<Day>, end: Option<Day>)
      modifies this`startDate, this`endDate
      ensures startDate == start && endDate == end
    {
      startDate, endDate := start, end;
    }

    /** loadAttendanceCounts: skipped while a date is missing; otherwise the period's summary. */
    method LoadAttendanceCounts(log: seq<AttendanceRow>)
      modifies this`attendanceCounts
      ensures startDate.None? || endDate.None? ==> attendanceCounts == old(attendanceCounts)
      ensures startDate.Some? && endDate.Some? ==>
                attendanceCounts == AttendanceCounts(QueryAttendance(log, startDate.value, endDate.value))
    {
      if startDate.None? || endDate.None? {
        return;
      }
      attendanceCounts := FetchAttendanceCounts(log, startDate.value, endDate.value);
    }

    method ToggleRow(id: EmployeeId)
      modifies this`selectedEmployeeIds
      ensures selectedEmployeeIds == WithRowToggled(old(selectedEmployeeIds), id)
    {
      selectedEmployeeIds := WithRowToggled(selectedEmployeeIds, id);
    }

    method ToggleAll()
      modifies this`selectedEmployeeIds
      ensures selectedEmployeeIds == WithAllToggled(old(selectedEmployeeIds), IdsOf(FilteredEmployees(employees, searchTerm)))
    {
      var visibleIds := IdsOf(FilteredEmployees(employees, searchTerm));
      selectedEmployeeIds := WithAllToggled(selectedEmployeeIds, visibleIds);
    }

    /** handleRateChange: clear the rate's error and keep the typed text as the rate. */
    method ChangeRate(id: EmployeeId, text: string)
      modifies this`employees, this`rateErrors
      ensures rateErrors == old(rateErrors)[id := NoRateError]
      ensures employees == WithRateTyped(old(employees), id, text)
    {
      rateErrors := rateErrors[id := NoRateError];
      employees := WithRateTyped(employees, id, text);
    }

    /**
     * saveRate: nothing for an unknown id; "Invalid rate" for a NaN or
     * negative rate; otherwise write the rate, reporting a failed write.
     */
    method SaveRate(id: EmployeeId, writeOk: bool)
      modifies this`rateErrors, store`dailyRates
      ensures FirstWithId(employees, id).None? ==>
                rateErrors == old(rateErrors) && store.dailyRates == old(store.dailyRates)
      ensures FirstWithId(employees, id).Some? ==>
                var rate := RateNumber(FirstWithId(employees, id).value.dailyRate);
                if rate.None? || rate.value < 0 then
                  rateErrors == old(rateErrors)[id := InvalidRate] && store.dailyRates == old(store.dailyRates)
                else
                  && rateErrors == old(rateErrors)[id := if writeOk then NoRateError else SaveFailed]
                  && (writeOk && id in old(store.dailyRates) ==> store.dailyRates == old(store.dailyRates)[id := rate.value])
                  && (!writeOk || id !in old(store.dailyRates) ==> store.dailyRates == old(store.dailyRates))
    {
      var emp := FirstWithId(employees, id);
      if emp.None? {
        return;
      }
      var rateNum := RateNumber(emp.value.dailyRate);
      if rateNum.None? || rateNum.value < 0 {
        rateErrors := rateErrors[id := InvalidRate];
        return;
      }
      rateErrors := rateErrors[id := NoRateError];
      var ok := store.UpdateEmployeeDailyRate(id, rateNum.value, writeOk);
      if !ok {
        rateErrors := rateErrors[id := SaveFailed];
      }
    }

    /**
     * handleProcessPayroll: ignored while a run is processing; refused without
     * both dates or without a selection; otherwise write the run and records.
     */
    method ProcessPayroll(runOutcome: RunInsertOutcome, writeOk: bool, now: Timestamp)
      modifies this`processing, this`processMsg, this`selectedEmployeeIds, store`runs, store`records
      ensures old(processing) ==>
                && processing && processMsg == old(processMsg) && selectedEmployeeIds == old(selectedEmployeeIds)
                && store.runs == old(store.runs) && store.records == old(store.records)
      ensures !old(processing) ==> !processing
      ensures !old(processing) && (old(startDate).None? || old(endDate).None?) ==>
                && processMsg == SelectDates && selectedEmployeeIds == old(selectedEmployeeIds)
                && store.runs == old(store.runs) && store.records == old(store.records)
      ensures !old(processing) && old(startDate).Some? && old(endDate).Some? && old(selectedEmployeeIds) == [] ==>
                && processMsg == SelectEmployee && selectedEmployeeIds == old(selectedEmployeeIds)
                && store.runs == old(store.runs) && store.records == old(store.records)
      ensures !old(processing) && old(startDate).Some? && old(endDate).Some? && old(selectedEmployeeIds) != [] ==>
                RunWritten(old(startDate).value, old(endDate).value,
                           BuildRecords(SelectedRows(old(Preview()), old(selectedEmployeeIds)), old(startDate).value, old(endDate).value, now),
                           runOutcome, writeOk, old(store.runs), old(store.records), old(selectedEmployeeIds))
    {
      if processing {
        return;
      }
      processMsg := NoMessage;
      if startDate.None? || endDate.None? {
        processMsg := SelectDates;
        return;
      }
      if |selectedEmployeeIds| == 0 {
        processMsg := SelectEmployee;
        return;
      }
      processing := true;
      var start, end := startDate.value, endDate.value;
      var records := BuildRecords(SelectedRows(Preview(), selectedEmployeeIds), start, end, now);
      WriteRun(start, end, records, runOutcome, writeOk);
      processing := false;
    }

    /**
     * The state a processed run leaves: the run upserted, then the records;
     * on success the message carries the run id and the selection is cleared,
     * on failure the records and the selection stay and the message says so.
     */
    ghost predicate RunWritten(
      start: Day, end: Day, records: seq<PayrollRecord>, runOutcome: RunInsertOutcome, writeOk: bool,
      runsBefore: seq<PayrollRun>, recordsBefore: map<RecordKey, PayrollRecord>, selectedBefore: seq<EmployeeId>)
      reads this`processMsg, this`selectedEmployeeIds, store`runs, store`records
    {
      var runId := if runOutcome.RunInserted? && runOutcome.id != 0 then Some(runOutcome.id)
                   else ExistingRunId(store.runs, start, end);
      && (runOutcome.RunInsertFailed? ==> store.runs == runsBefore)
      && (runOutcome.RunInserted? ==> store.runs == runsBefore + [PayrollRun(runOutcome.id, start, end)])
      && (writeOk && DistinctKeys(records) ==>
            && store.records == UpsertAll(recordsBefore, records)
            && processMsg == RunSaved(runId) && selectedEmployeeIds == [])
      && (!(writeOk && DistinctKeys(records)) ==>
            && store.records == recordsBefore
            && processMsg == ProcessFailed && selectedEmployeeIds == selectedBefore)
    }

    /** The steps after the guards: upsert the run, upsert the records, report. */
    method WriteRun(start: Day, end: Day, records: seq<PayrollRecord>, runOutcome: RunInsertOutcome, writeOk: bool)
      modifies this`processMsg, this`selectedEmployeeIds, store`runs, store`records
      ensures RunWritten(start, end, records, runOutcome, writeOk, old(store.runs), old(store.records), old(selectedEmployeeIds))
    {
      var runId := store.UpsertPayrollRun(start, end, runOutcome);
      var ok := store.UpsertPayrollRecords(records, writeOk);
      if ok {
        processMsg := RunSaved(runId);
        selectedEmployeeIds := [];
      } else {
        processMsg := ProcessFailed;
      }
    }
  }
}
