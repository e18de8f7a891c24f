# Payroll_Organized: leave and payroll core, modelled in Dafny

This project models the core of the Payroll_Organized HR application:

- **leave accounting.** The leave-plan queries, the working-day count and the recall of a leave with a refund of unused days. Source: `src/services/leaveService.js`.
- **the leave application dialog.** Its business-day count and the "remaining after" figure. Source: `LeaveApplicationModal.jsx`.
- **the admin leave page.** Its handlers create, edit and soft-delete leave plans, approve or reject applications, and recall an ongoing leave. Source: `LeaveManagement.jsx`.
- **the payroll page.** It covers the search filter, the row and select-all toggles, the rate edits, the gross-pay preview, the selected total and the processing of a payroll run. Source: `PayrollManagement.jsx`.
- **the payroll service.** It covers the attendance summary, the daily-rate update, the run upsert and the upsert of payroll records. Source: `src/services/payrollService.js`.
- **the employee service.** It covers mapping an employees row to an employee, the employee list query, and the two lookups by identity-provider uid. Source: `src/services/employeeService.js`.

How things are represented:

- **Dates** are day numbers. Day 0 is 1970-01-01, a Thursday, so `Weekday(d) = (d + 4) % 7` agrees with JavaScript's `getDay` in UTC (and in zones east of it). West of UTC, `new Date("YYYY-MM-DD")` falls on the previous local day; see "Dates and time zones" under Left out.
- **Working days.** Two exclusion rules count working days over a range:
  - the service's rule excludes Sundays only;
  - the dialog's rule excludes Saturdays and Sundays.

  `Calendar.CountChargeable` is the reference count. Both loops are proved against it.
- **Database tables** are fields of two classes:
  - `LeaveService.LeaveDatabase` holds applications, plans, employees, balances and notifications;
  - `PayrollService.PayrollStore` holds runs, records and daily rates.

  Each service call that writes is a method that modifies only the fields it writes.
- **Page state.** Each page's React state is a class: `LeaveManagement.LeavePage` and `PayrollManagement.PayrollPage`. Each handler is a method whose contract states the page's new state and the new database state, for every branch of the handler.
- **Store answers** that the code branches on are parameters of the method. These are:
  - an insert accepted or rejected;
  - a write that succeeds or fails, including the `id=eq.undefined` request a bare delete target sends, which the store may refuse or match with no row;
  - a notification delivered or not.
- **The clock** (`new Date()`, `Date.now()`) is a `now` parameter.
- **JavaScript values.**
  - `undefined` and `null` are `Option`s, except where the code treats them differently: the recall's resumption date distinguishes a date, `null` (read as the epoch) and an unreadable value (`LeaveService.ResumptionArg`).
  - `Number(text)` on form text is `Text.NumberValue`: the text is trimmed, blank gives 0, a string of digits gives its value, and anything else gives NaN (`None`).
  - The truthiness tests of the source are written out. For example, an id of 0 is falsy.
- **Supabase query semantics.**
  - `.single()` fails unless exactly one row matches.
  - `.maybeSingle()` gives null for no row, the row for one, and an error for several.
  - `.neq("role", "admin")` also drops rows whose role is NULL, as SQL comparison does.
  - An upsert batch that names the same conflict key twice is refused.

## Model

| member | source | states |
|---|---|---|
| Calendar.Weekday | src/services/leaveService.js:207 | the day of the week of a day number is in 0..6 (0 = Sunday) |
| Calendar.CountChargeable | src/services/leaveService.js:195-213 | the reference working-day count never exceeds the calendar length of the range, and is 0 for an empty range |
| Calendar.CountIsCardinality | src/services/leaveService.js:206-210 | the count equals the size of the set of chargeable days in the range |
| Calendar.CountSplit | src/services/leaveService.js:245-254 | counting [start, mid-1] and [mid, end] separately adds up to the count over [start, end] |
| Calendar.SundayOnlyCountAddsSaturdays | src/features/leave_management/components/LeaveApplicationModal.jsx:13-16 | the Sunday-only count is the weekday count plus the Saturdays in the range, so the dialog's count never exceeds the service's |
| Calendar.NextWeekday | src/services/leaveService.js:207-209 | advancing one day advances the weekday by one, wrapping Saturday to Sunday |
| Calendar.WeekCount | src/services/leaveService.js:206-210 | any seven consecutive days hold 6 Sunday-only working days, or 5 days Monday to Friday |
| Calendar.WeeksCount | src/services/leaveService.js:206-210 | n whole weeks hold 6n (Sunday-only) or 5n (Monday to Friday) working days |
| Calendar.MondayToFridayCount | src/services/leaveService.js:206-210 | a Monday-to-Friday range counts 5 under both rules |
| Calendar.WeekendCount | src/features/leave_management/components/LeaveApplicationModal.jsx:13-16 | a Saturday-Sunday range counts 0 in the dialog and 1 in the service |
| Text.TrimBlank | src/services/employeeService.js:37 | a trimmed text is empty exactly when the text is all whitespace |
| Text.ToLower | src/features/payroll_management/pages/PayrollManagement.jsx:112-117 | lower-casing keeps the length and lower-cases each character in place |
| Text.ContainsAt | src/features/payroll_management/pages/PayrollManagement.jsx:118 | `includes` holds exactly when the needle occurs at some index of the text |
| Text.NumberValue | src/features/leave_management/pages/LeaveManagement.jsx:180 | `Number(text)`: blank text gives 0, digits give their value, and any other text gives NaN |
| LeaveRecords.ApplyPatch | src/services/leaveService.js:112-120 | an update writes status and reviewed_at, and writes reviewed_by and the recall columns only when given; every other column keeps its value |
| LeaveRecords.EditedPlan | src/services/leaveService.js:89-97 | an edit sets name, duration and allow_recall and keeps id, is_paid and is_active |
| LeaveRecords.StoredPlan | src/services/leaveService.js:76-86 | an inserted plan row carries the payload's columns, the new id and the is_paid default |
| LeaveService.PlansForCategory | src/services/leaveService.js:20-37 | the active plans; for a "Job Order" employee, exactly the active plans whose is_paid is false |
| LeaveService.OngoingRecallableLeaves | src/services/leaveService.js:55-72 | exactly the approved applications running today whose joined plan has allow_recall true |
| LeaveService.CalculateWorkingDays | src/services/leaveService.js:195-213 | 0 for a missing date or an empty range; otherwise the Sunday-only count over the range |
| LeaveService.Patched | src/services/leaveService.js:112-120 | the update touches only the row with that id and leaves the table's keys unchanged |
| LeaveService.RecallSplit | src/services/leaveService.js:245-254 | no refund when resuming after the end; no days used when resuming on or before the start; days used are bounded by the days elapsed |
| LeaveService.NullDateSplit | src/services/leaveService.js:245-254 | with a null resumption date nothing is refunded, and a leave starting in 1970 or later counts no days used |
| LeaveService.RecallSplitAddsUp | src/services/leaveService.js:245-254 | for a resumption inside the leave, days used plus days refunded equal the leave's working days |
| LeaveService.EarlyResumptionRefundsDaysBeforeLeave | src/services/leaveService.js:254 | a resumption date before the start refunds the leave's days plus the working days before it |
| LeaveService.RecallJanuary2025Example | src/services/leaveService.js:245-254 | a leave from 2025-01-06 to 2025-01-17, resumed on 2025-01-13, uses 6 days and refunds 5 |
| LeaveService.Refunded | src/services/leaveService.js:280-303 | the refund adds exactly the refunded days to that one balance row, and changes nothing else |
| LeaveService.RecallPatch | src/services/leaveService.js:264-275 | the recall update writes status recalled, the reviewer, the time, the resumption date (null for a null argument), the reason, days used and days refunded |
| LeaveService.LeaveDatabase.GetLeaveApplication | src/services/leaveService.js:124-138 | the row with the id, or an error when there is none |
| LeaveService.LeaveDatabase.UpdateLeaveStatus | src/services/leaveService.js:112-120 | an accepted write patches the row with the id; a refused one changes nothing and is reported |
| LeaveService.LeaveDatabase.CreateLeavePlan | src/services/leaveService.js:76-86 | a rejected insert changes nothing; an accepted one adds the stored row under its id and returns it |
| LeaveService.LeaveDatabase.UpdateLeavePlan | src/services/leaveService.js:89-97 | an accepted write edits the plan with the id, and an unknown id changes nothing; a refused one changes nothing and is reported |
| LeaveService.LeaveDatabase.SoftDeleteLeavePlan | src/services/leaveService.js:100-108 | an accepted write sets is_active false on the plan with the id and changes nothing else; an undefined id or a refused write changes nothing; the result is the store's answer |
| LeaveService.LeaveDatabase.InsertNotification | src/services/leaveService.js:141-144 | a delivered notification is appended, and the result reports delivery |
| LeaveService.LeaveDatabase.RecallLeaveWithRefund | src/services/leaveService.js:219-316 | fails with nothing written when the joined fetch finds no row, the date is unreadable (undefined, empty or malformed) or the status update is refused; a null date is written as a recall with a null date and the null-date split; otherwise writes the recall update, then credits the balance row by the refunded days when they are positive and the row exists; a failed credit leaves the status written and the balance unchanged |
| LeaveApplicationModal.CalculateDuration | src/features/leave_management/components/LeaveApplicationModal.jsx:5-19 | 0 for a missing date or an empty range; otherwise the number of Monday-to-Friday days in the range |
| LeaveApplicationModal.RemainingAfter | src/features/leave_management/components/LeaveApplicationModal.jsx:113 | never negative, never above a non-negative balance, and the balance minus the request unless the request exceeds it |
| LeaveApplicationModal.SummaryImpliesWeekdayInRange | src/features/leave_management/components/LeaveApplicationModal.jsx:105 | when the summary shows, the range is non-empty and contains a weekday |
| LeaveApplicationModal.WeekendGivesNoSummary | src/features/leave_management/components/LeaveApplicationModal.jsx:105 | a Saturday-to-Sunday request shows no duration summary |
| LeaveManagement.SetStatusWhere | src/features/leave_management/pages/LeaveManagement.jsx:238-242 | entries with the id get the new status, and every other entry is unchanged |
| LeaveManagement.SetStatusWhereIdempotent | src/features/leave_management/pages/LeaveManagement.jsx:292-296 | setting the same status twice is the same as setting it once |
| LeaveManagement.EditPlanWhere | src/features/leave_management/pages/LeaveManagement.jsx:329-340 | entries with the id get the edit, and every other entry is unchanged |
| Seqs.FilterMultiplicity | src/features/leave_management/pages/LeaveManagement.jsx:361 | `filter` keeps every copy of an element that passes and no copy of one that fails; with `Seqs.FilterConcat` this fixes both the order and the multiplicity of every filtered list in the model |
| Seqs.FilterConcat | src/features/leave_management/pages/LeaveManagement.jsx:411-413 | `filter` over a concatenation is the concatenation of the filtered parts, so every filtered list keeps its elements in their original order |
| LeaveManagement.RemovePlansWithId | src/features/leave_management/pages/LeaveManagement.jsx:361 | a plan is kept exactly when its id differs from the target |
| LeaveManagement.UndefinedIdRemovesNothing | src/features/leave_management/pages/LeaveManagement.jsx:361 | filtering by an undefined id keeps the list as it is |
| LeaveManagement.RemoveLeaveWithId | src/features/leave_management/pages/LeaveManagement.jsx:411-413 | a leave is kept exactly when its id differs from the recalled one |
| LeaveManagement.CreatePayload | src/features/leave_management/pages/LeaveManagement.jsx:173-183 | refused exactly when the name or the duration is empty; otherwise the name, `Number(duration)`, active, and allow_recall set exactly when "Yes" was chosen |
| LeaveManagement.EditUpdate | src/features/leave_management/pages/LeaveManagement.jsx:323-327 | the update carries the edited name, `Number(duration)`, and allow_recall set exactly when "Yes" |
| LeaveManagement.UnchangedEditKeepsPlan | src/features/leave_management/pages/LeaveManagement.jsx:312-340 | saving an edit form left as loaded returns the plan unchanged, except that a null allow_recall becomes false and a null duration becomes 0 |
| LeaveManagement.DeletePlanRowRemovesIt | src/features/leave_management/pages/LeaveManagement.jsx:348-361 | deleting through a plan row removes exactly the plans with its id |
| LeaveManagement.DeleteFromSettingsTableKeepsEveryPlan | src/features/leave_management/components/LeaveSettingsPanel.jsx:198 | the settings table passes a bare id, so `planToDelete.id` is undefined and the confirmed delete keeps every plan |
| LeaveManagement.Notified | src/features/leave_management/pages/LeaveManagement.jsx:90-109 | skipped when the employee id or the application id is falsy (missing or 0); a failed insert is swallowed; otherwise exactly one notification is appended |
| LeaveManagement.LeavePage.constructor | src/features/leave_management/pages/LeaveManagement.jsx:37-82 | the forms start empty and no dialog has a selection |
| LeaveManagement.LeavePage.CreateLeaveNotification | src/features/leave_management/pages/LeaveManagement.jsx:90-109 | the notifications become `Notified(...)` of the old ones |
| LeaveManagement.LeavePage.FillCreateForm | src/features/leave_management/pages/LeaveManagement.jsx:50-52 | the create form holds the typed values |
| LeaveManagement.LeavePage.CreateLeaveSetting | src/features/leave_management/pages/LeaveManagement.jsx:171-201 | an incomplete form changes nothing; a rejected insert keeps the list and the form; an accepted one adds the stored row to the list and clears the form |
| LeaveManagement.LeavePage.SelectApplication | src/features/leave_management/pages/LeaveManagement.jsx:204-207 | the dialog's application is the one clicked |
| LeaveManagement.LeavePage.ConfirmReview | src/features/leave_management/pages/LeaveManagement.jsx:210-255 | nothing happens with no selection; nothing is written for a falsy or missing id; a refused status update changes nothing and keeps the selection; otherwise the status, time and reviewer are written, the row's employee is notified, matching history entries get the status, the selection is cleared, and balances are untouched |
| LeaveManagement.LeavePage.ConfirmApproveLeave | src/features/leave_management/pages/LeaveManagement.jsx:210-255 | the same branches as the shared review: approval writes status approved with time and reviewer, notifies "leave_approved" and clears the selection; no balance is debited |
| LeaveManagement.LeavePage.ConfirmRejectLeave | src/features/leave_management/pages/LeaveManagement.jsx:265-309 | the same branches as the shared review: rejection writes status rejected with time and reviewer, notifies "leave_declined" and clears the selection; no balance changes |
| LeaveManagement.LeavePage.StartEdit | src/features/leave_management/pages/LeaveManagement.jsx:312-318 | the edit form is loaded from the plan, with allow_recall shown as "Yes" or "No" |
| LeaveManagement.LeavePage.FillEditForm | src/features/leave_management/pages/LeaveManagement.jsx:56-58 | the edit form holds the typed values |
| LeaveManagement.LeavePage.SaveEdit | src/features/leave_management/pages/LeaveManagement.jsx:320-345 | with no plan being edited, nothing changes; a refused update changes nothing and keeps the form open; otherwise the stored plan and the matching list entries get the edit and the form closes |
| LeaveManagement.LeavePage.DeleteLeavePlan | src/features/leave_management/pages/LeaveManagement.jsx:348-352 | remembers what was passed for deletion |
| LeaveManagement.LeavePage.ConfirmDeletePlan | src/features/leave_management/pages/LeaveManagement.jsx:355-374 | nothing happens without a target or for the bare id 0; a refused delete changes nothing and keeps the target; otherwise soft-deletes the target's plan, drops the plans with its id from the list and clears the target; an undefined id does neither |
| LeaveManagement.LeavePage.CancelDeletePlan | src/features/leave_management/pages/LeaveManagement.jsx:377-380 | clears the delete target |
| LeaveManagement.LeavePage.OpenRecallModal | src/features/leave_management/pages/LeaveManagement.jsx:382-387 | selects the leave and clears the date |
| LeaveManagement.LeavePage.ChooseResumptionDate | src/features/leave_management/pages/LeaveManagement.jsx:64 | the dialog holds the chosen date |
| LeaveManagement.LeavePage.SubmitRecall | src/features/leave_management/pages/LeaveManagement.jsx:389-420 | without a date, without a selected leave, or when the update is refused, nothing changes; otherwise only status and time are written, the employee is notified with the date, the leave leaves the ongoing list, and no balance is refunded |
| LeaveManagement.PageRecallWritesNoRefundDetails | src/features/leave_management/pages/LeaveManagement.jsx:398-401 | the page's recall keeps the reviewer and writes none of the recall columns |
| PayrollService.QueryAttendance | src/services/payrollService.js:18-23 | exactly the log rows in the period that have a clock-in time |
| PayrollService.RowCount | src/services/payrollService.js:28-33 | an employee's row count is at most the number of rows |
| PayrollService.ShiftDatesAppend | src/services/payrollService.js:28-33 | a new row adds its shift date to its own employee's day set only |
| PayrollService.DaySetsAppend | src/services/payrollService.js:28-33 | one step of the loop: the row's day joins its employee's set; the other sets stay |
| PayrollService.CollectDays | src/services/payrollService.js:27-33 | the first loop builds, for each employee with a row, the Set of that employee's shift dates |
| PayrollService.Normalize | src/services/payrollService.js:35-39 | the second loop maps every key to the size of its Set, and adds no other key |
| PayrollService.CountsOfDaySets | src/services/payrollService.js:35-39 | replacing each day Set by its size gives the reference summary |
| PayrollService.FetchAttendanceCounts | src/services/payrollService.js:17-40 | the result maps each employee with a qualifying row to the number of distinct shift dates among those rows |
| PayrollService.AttendanceCountBounds | src/services/payrollService.js:27-38 | each listed employee counts at least 1 day and at most their number of rows |
| PayrollService.ShiftDatesWithinRowCount | src/services/payrollService.js:27-38 | the distinct days are never more than the rows |
| PayrollService.SameDayCountsOnce | src/services/payrollService.js:31-32 | a second row for the same employee and day leaves every count unchanged |
| PayrollService.ExistingRunId | src/services/payrollService.js:63-70 | no run of that period gives null; exactly one gives that run's id; two or more make `maybeSingle` fail, which gives null |
| PayrollService.DuplicatePeriodGivesNoRun | src/services/payrollService.js:63-70 | with two runs for one period, `maybeSingle` errors and the lookup gives null |
| PayrollService.UpsertAllKeys | src/services/payrollService.js:74-77 | after the upsert the table's keys are its old keys plus the batch's conflict keys |
| PayrollService.UpsertAllKeepsUntouched | src/services/payrollService.js:74-77 | a record whose (employee, period) key the batch does not name is kept as it was |
| PayrollService.UpsertAllLastWriteWins | src/services/payrollService.js:74-77 | a batch record whose key no later batch record repeats is what the table holds under that key |
| PayrollService.UpsertAllKeyed | src/services/payrollService.js:74-77 | a table whose records sit under their own conflict key stays so after the upsert |
| PayrollService.UpsertAllIdempotent | src/services/payrollService.js:74-80 | upserting the same batch twice is the same as once |
| PayrollService.PayrollStore.constructor | src/services/payrollService.js:53-80 | the store holds the given tables |
| PayrollService.PayrollStore.UpsertPayrollRun | src/services/payrollService.js:53-71 | an inserted run is appended; a truthy new id is returned; otherwise the id of the period's run is looked up |
| PayrollService.PayrollStore.UpsertPayrollRecords | src/services/payrollService.js:74-80 | succeeds exactly when the write succeeds and the batch's keys are distinct, and then the records are upserted; otherwise nothing changes |
| PayrollService.PayrollStore.UpdateEmployeeDailyRate | src/services/payrollService.js:43-50 | a successful write sets that employee's rate and no other |
| PayrollManagement.RateOrZero | src/features/payroll_management/pages/PayrollManagement.jsx:178 | `Number(daily_rate) \|\| 0`: the rate's value, or 0 when it is NaN |
| PayrollManagement.Query | src/features/payroll_management/pages/PayrollManagement.jsx:112-113 | the query is empty exactly when the search term is all whitespace |
| PayrollManagement.FilteredEmployees | src/features/payroll_management/pages/PayrollManagement.jsx:111-120 | a blank search keeps the list; otherwise exactly the employees whose name, department or position contains the query, ignoring case |
| PayrollManagement.FilteredEmployeesKeepsOrder | src/features/payroll_management/pages/PayrollManagement.jsx:114 | filtering a concatenation is the concatenation of the filtered parts, so order is kept |
| PayrollManagement.IdsOf | src/features/payroll_management/pages/PayrollManagement.jsx:130 | the visible ids, in row order |
| PayrollManagement.WithRowToggled | src/features/payroll_management/pages/PayrollManagement.jsx:122-128 | the id is selected afterwards exactly when it was not before; other ids keep their state; no duplicates are introduced |
| PayrollManagement.WithAllToggled | src/features/payroll_management/pages/PayrollManagement.jsx:135-145 | when every visible row is selected, they are all deselected; otherwise the visible ids are added once each |
| PayrollManagement.ToggleAllFlips | src/features/payroll_management/pages/PayrollManagement.jsx:131-145 | select-all deselects every visible row when all were selected, and otherwise leaves them all selected |
| PayrollManagement.ToggleAllTwiceDropsVisible | src/features/payroll_management/pages/PayrollManagement.jsx:135-145 | pressing select-all twice from a partial selection deselects every visible row, even those selected before |
| PayrollManagement.PresentDays | src/features/payroll_management/pages/PayrollManagement.jsx:177 | the employee's attendance count, or 0 when it is absent |
| PayrollManagement.RowsWithPreview | src/features/payroll_management/pages/PayrollManagement.jsx:175-182 | each row keeps its employee, with present days and gross pay equal to days times rate |
| PayrollManagement.AbsentEmployeeEarnsNothing | src/features/payroll_management/pages/PayrollManagement.jsx:177-179 | an employee with no attendance entry previews a gross pay of 0 |
| PayrollManagement.SelectedRows | src/features/payroll_management/pages/PayrollManagement.jsx:186-187 | exactly the preview rows whose employee is selected |
| PayrollManagement.SumGrossConcat | src/features/payroll_management/pages/PayrollManagement.jsx:188 | the sum over a concatenation is the sum of the sums |
| PayrollManagement.TotalGross | src/features/payroll_management/pages/PayrollManagement.jsx:184-190 | the total is non-negative when no row's gross pay is negative |
| PayrollManagement.NonNegativeSum | src/features/payroll_management/pages/PayrollManagement.jsx:188 | a sum of non-negative gross pays is non-negative |
| PayrollManagement.TotalGrossSplits | src/features/payroll_management/pages/PayrollManagement.jsx:184-190 | the total over a concatenation of rows is the sum of the totals |
| PayrollManagement.BuildRecords | src/features/payroll_management/pages/PayrollManagement.jsx:204-213 | one record per selected row, in order, carrying its id, the period, its gross pay, "Paid" and the payment time |
| PayrollManagement.RecordsAddUpToTotal | src/features/payroll_management/pages/PayrollManagement.jsx:184-213 | the records' gross pays add up to the total the page shows for the same rows |
| PayrollManagement.RecordsHaveDistinctKeys | src/features/payroll_management/pages/PayrollManagement.jsx:204-215 | rows with distinct ids give a batch with distinct conflict keys |
| PayrollManagement.HiddenSelectionGetsNoRecord | src/features/payroll_management/pages/PayrollManagement.jsx:204-205 | a selected employee hidden by the search gets no record |
| PayrollManagement.FirstWithId | src/features/payroll_management/pages/PayrollManagement.jsx:157 | none exactly when no employee has the id; otherwise the first employee that has it |
| PayrollManagement.WithRateTyped | src/features/payroll_management/pages/PayrollManagement.jsx:149-153 | employees with the id get the typed rate text, and all others are unchanged |
| PayrollManagement.PayrollPage.constructor | src/features/payroll_management/pages/PayrollManagement.jsx:31-47 | the period defaults to 2025-12-01 to 2025-12-31, and there is no search, selection, count or message |
| PayrollManagement.PayrollPage.SetSearchTerm | src/features/payroll_management/pages/PayrollManagement.jsx:31 | the search term is the typed text |
| PayrollManagement.PayrollPage.SetPeriod | src/features/payroll_management/pages/PayrollManagement.jsx:33-34 | the period is the chosen dates |
| PayrollManagement.PayrollPage.LoadAttendanceCounts | src/features/payroll_management/pages/PayrollManagement.jsx:94-109 | skipped while a date is missing; otherwise the counts are the period's attendance summary |
| PayrollManagement.PayrollPage.ToggleRow | src/features/payroll_management/pages/PayrollManagement.jsx:122-128 | the selection becomes the row-toggled selection |
| PayrollManagement.PayrollPage.ToggleAll | src/features/payroll_management/pages/PayrollManagement.jsx:130-145 | the selection becomes the select-all toggle over the filtered employees' ids |
| PayrollManagement.PayrollPage.ChangeRate | src/features/payroll_management/pages/PayrollManagement.jsx:147-154 | clears that employee's rate error and puts the typed text in the matching rows |
| PayrollManagement.PayrollPage.SaveRate | src/features/payroll_management/pages/PayrollManagement.jsx:156-173 | nothing for an unknown id; "Invalid rate" for a NaN or negative rate, with nothing written; otherwise the rate is written and a failed write is reported |
| PayrollManagement.PayrollPage.ProcessPayroll | src/features/payroll_management/pages/PayrollManagement.jsx:192-225 | ignored while processing; refused without dates or a selection; otherwise the run and the selected visible rows' records are upserted, and on success the run id is reported and the selection cleared |
| PayrollManagement.PayrollPage.WriteRun | src/features/payroll_management/pages/PayrollManagement.jsx:201-221 | after the guards: the run upsert, the records upsert, then the success or failure message |
| EmployeeService.OrDefault | src/services/employeeService.js:14-25 | `column \|\| default`: the column when present and non-empty, the default otherwise |
| EmployeeService.MapRowToEmployee | src/services/employeeService.js:6-28 | every column is kept or given its default ("Unknown", "N/A", "", "user"); can_view_payroll is set exactly when it is true; status is Active exactly when last_seen is under 30 s ago |
| EmployeeService.InactiveStaysInactive | src/services/employeeService.js:7-9 | an inactive employee stays inactive as the clock advances |
| EmployeeService.OnlyStatusDependsOnClock | src/services/employeeService.js:6-28 | the mapping at two instants differs at most in the status |
| EmployeeService.MapRows | src/services/employeeService.js:47 | every row is mapped, in order |
| EmployeeService.FetchEmployees | src/services/employeeService.js:30-48 | no admin in the result; each result is a listed row mapped; every listed row (non-null non-admin role, matching the trimmed term) appears |
| EmployeeService.NonAdminMapsToNonAdmin | src/services/employeeService.js:25 | a row that passes the admin filter never maps to an admin role |
| EmployeeService.BlankSearchListsEveryNonAdmin | src/services/employeeService.js:37-42 | with a blank search term, a row is listed exactly when it is not an admin |
| EmployeeService.FetchEmployeeByFirebaseUid | src/services/employeeService.js:61-72 | null exactly when no row has the uid; the profile of the one row when exactly one has it; the several-rows error when two or more do |
| EmployeeService.SharedUidFails | src/services/employeeService.js:68-70 | two rows sharing a uid make both lookups fail with the several-rows error rather than pick one |
| EmployeeService.UniqueUidFindsItsRow | src/services/employeeService.js:61-84 | a uid carried by exactly one row gives that row's profile and that row's id |
| EmployeeService.FetchEmployeeIdByFirebaseUid | src/services/employeeService.js:75-84 | the no-rows error exactly when no row has the uid; the id of the one row when exactly one has it; the several-rows error when two or more do |
| EmployeeService.LookupsAgreeOnUniqueUid | src/services/employeeService.js:61-84 | when the id lookup succeeds, the profile lookup finds a profile with that same id |

## Left out

- **Dates and time zones.** JavaScript `Date` parsing, time zones and ISO formatting are left out. Dates are whole day numbers in UTC, and timestamps are opaque numbers.
- **Money.** Amounts and rates are integers. Fractional rates, floating-point products and the other literal forms `Number` accepts (signs, decimals, exponents, hexadecimal, Infinity) are not modelled.
- **Locale formatting.** Peso formatting, the page clock and other display formatting are not modelled.
- **Text.** Case folding covers ASCII letters only, and whitespace covers the common ASCII characters. Unicode case mapping and the full JavaScript trim set are not modelled.
- **Search patterns.** The `ilike` search treats the term as plain text. The `%` and `_` wildcards inside a search term are not interpreted.
- EmployeeService.FetchEmployees: the trimmed term is pasted unescaped into PostgREST's `.or(...)` filter text. A term containing a comma, a parenthesis or a double quote changes how that filter is parsed. The request can then fail, and employeeService.js:45 rethrows the error, or it can match by other conditions. The model reads the term as plain text and always returns the list, because the filter grammar of the hosted database is not part of this model.
- **Ordering.** Query ordering (`order(...)`, `sortField`) is not modelled. List results are in table order.
- **Atomicity.** Every service call runs to completion before the next one. Concurrent requests and interleaved React updates are not modelled.
- **Failed list loads.** A failed list query (the plan, application, ongoing-leave and employee loads) is only logged; the page keeps its initial list, and the model gives each page the lists the queries returned. The writes the handlers catch and alert or log are modelled through the store-answer parameters.
- **Notification text.** Notification titles and messages are not stored. A notification is its employee, its application and its kind, and a recall notification also carries its resumption date.
- **UI state.** Loading flags, saving flags, toasts, alerts, dropdowns and dialog visibility are not modelled.
- **Payment time.** `paid_at` is one `now` for the whole batch, not one clock read per record.
- **Session and UI components.** Authentication, the session store, navigation and the presentational components are not part of this model.
- **I/O wrappers.** `fetchLeavePlans`, `fetchUserLeaveApplications`, `fetchAdminLeaveApplications`, `fetchUserLeaveHistory`, `insertLeaveApplication`, `fetchActiveEmployeesForPayroll`, `fetchPayrollHistoryByEmployee`, `insertEmployee`, `deleteEmployeeById`, `markEmployeeOnline` and `markEmployeeOffline` are plain queries or writes with no logic of their own. The pages receive their results as initial state.
- PayrollManagement.PayrollPage.LoadAttendanceCounts: the error path that resets the counts to `{}` is not modelled, because the attendance query is modelled as always answering.
- EmployeeService.MapRowToEmployee: a `last_seen` text that does not parse as a date is not modelled. `last_seen` is an optional instant.
- LeaveService.LeaveDatabase.RecallLeaveWithRefund: a refund whose balance fetch fails is treated as a missing balance row, as the code does. The console output and the message text are not modelled.
