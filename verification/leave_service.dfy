/**
 * The leave service: the Sunday-only working-day counter, the recall-with-refund
 * routine, the post-query filters, and the leave tables it reads and writes.
 */
module LeaveService {
  import opened Wrappers
  import opened Calendar
  import opened Seqs
  import opened LeaveRecords

  /** The employee category that only sees unpaid leave plans. */
  const JobOrder := "Job Order"

  /** The `.eq("is_active", true)` condition of the plan queries. */
  predicate IsActivePlan(p: LeavePlan) {
    p.isActive
  }

  /** `is_paid === false`: a null is_paid does not count as unpaid. */
  predicate IsUnpaidPlan(p: LeavePlan) {
    p.isPaid == Some(false)
  }

  /**
   * fetchLeavePlansForCategory over the rows of leave_plans: the active plans,
   * and for a "Job Order" employee only the active plans marked unpaid.
   */
  function PlansForCategory(plans: seq<LeavePlan>, employeeCategory: string): (r: seq<LeavePlan>)
    ensures employeeCategory != JobOrder ==> r == Filter(plans, IsActivePlan)
    ensures employeeCategory == JobOrder ==>
              forall p :: p in r <==> p in plans && p.isActive && p.isPaid == Some(false)
  {
    var active := Filter(plans, IsActivePlan);
    if employeeCategory == JobOrder then Filter(active, IsUnpaidPlan) else active
  }

  /**
   * The conditions of fetchOngoingRecallableLeaves: approved, started on or
   * before today, ending on or after today, and a joined plan whose
   * allow_recall is exactly true (a missing plan row joins as null).
   */
  predicate IsOngoingRecallable(a: LeaveApplication, plans: map<PlanId, LeavePlan>, today: Day) {
    && a.status == Approved
    && a.startDate <= today <= a.endDate
    && a.planId in plans
    && plans[a.planId].allowRecall == Some(true)
  }

  /** fetchOngoingRecallableLeaves over the rows of leave_applications. */
  function OngoingRecallableLeaves(applications: seq<LeaveApplication>, plans: map<PlanId, LeavePlan>, today: Day)
    : (r: seq<LeaveApplication>)
    ensures forall a :: a in r <==>
              && a in applications
              && a.status == Approved
              && a.startDate <= today <= a.endDate
              && a.planId in plans && plans[a.planId].allowRecall == Some(true)
  {
    Filter(applications, (a: LeaveApplication) => IsOngoingRecallable(a, plans, today))
  }

  /**
   * calculateWorkingDays: 0 when a date is missing or the range is empty,
   * otherwise the number of days of [start, end] that are not Sundays.
   */
  method CalculateWorkingDays(startDate: Option<Day>, endDate: Option<Day>) returns (count: nat)
    ensures startDate.None? || endDate.None? ==> count == 0
    ensures startDate.Some? && endDate.Some? && endDate.value < startDate.value ==> count == 0
    ensures startDate.Some? && endDate.Some? ==>
              count == CountChargeable(SundayOnly, startDate.value, endDate.value)
  {
    if startDate.None? || endDate.None? {
      return 0;
    }
    var start, end := startDate.value, endDate.value;
    if end < start {
      return 0;
    }
    count := 0;
    var current := start;
    while current <= end
      invariant start <= current <= end + 1
      invariant count == CountChargeable(SundayOnly, start, current - 1)
    {
      var day := Weekday(current);
      if day != Sunday {
        count := count + 1;
      }
      current := current + 1;
    }
  }

  /** The table after `.update(patch).eq("id", id)`: that row patched, or no change when no row has the id. */
  function Patched(table: map<ApplicationId, LeaveApplication>, id: ApplicationId, patch: StatusPatch)
    : (r: map<ApplicationId, LeaveApplication>)
    ensures r.Keys == table.Keys
    ensures forall k :: k in table && k != id ==> r[k] == table[k]
    ensures id in table ==> r[id] == ApplyPatch(table[id], patch)
  {
    if id in table then table[id := ApplyPatch(table[id], patch)] else table
  }

  /** The two counts of a recall: days used before resumption, days refunded from it on. */
  datatype RecallSummary = RecallSummary(daysUsed: nat, daysToRefund: nat)

  /**
   * The split recallLeaveWithRefund computes: daysUsed over
   * [start, resume - 1] and daysToRefund over [resume, end], both Sunday-only.
   */
  function RecallSplit(start: Day, end: Day, resume: Day): (s: RecallSummary)
    ensures resume > end ==> s.daysToRefund == 0
    ensures resume <= start ==> s.daysUsed == 0
    ensures s.daysUsed <= if resume <= start then 0 else resume - start
  {
    RecallSummary(CountChargeable(SundayOnly, start, resume - 1), CountChargeable(SundayOnly, resume, end))
  }

  /**
   * The split for a null resumption date: `new Date(null)` is the epoch, day 0,
   * so daysUsed runs from the start to day -1, and calculateWorkingDays(null, end)
   * is 0. A leave starting on or after 1970-01-01 therefore splits as 0 and 0.
   */
  function NullDateSplit(start: Day): (s: RecallSummary)
    ensures s.daysToRefund == 0
    ensures start >= 0 ==> s.daysUsed == 0
    ensures start < 0 ==> s.daysUsed == CountChargeable(SundayOnly, start, -1)
  {
    RecallSummary(CountChargeable(SundayOnly, start, -1), 0)
  }

  /** For a resumption inside the leave (or the day after it), used and refunded days add up to the leave's working days. */
  lemma RecallSplitAddsUp(start: Day, end: Day, resume: Day)
    requires start <= resume <= end + 1
    ensures RecallSplit(start, end, resume).daysUsed + RecallSplit(start, end, resume).daysToRefund
            == CountChargeable(SundayOnly, start, end)
  {
    CountSplit(SundayOnly, start, resume, end);
  }

  /**
   * A resumption date before the leave starts refunds the leave's working days
   * plus the working days between the resumption date and the start: nothing
   * bounds the refund by the leave itself.
   */
  lemma EarlyResumptionRefundsDaysBeforeLeave(start: Day, end: Day, resume: Day)
    requires resume < start <= end + 1
    ensures RecallSplit(start, end, resume).daysToRefund
            == CountChargeable(SundayOnly, resume, start - 1) + CountChargeable(SundayOnly, start, end)
  {
    CountSplit(SundayOnly, resume, start, end);
  }

  /** A leave 2025-01-06 (Mon) to 2025-01-17 (Fri), resumed 2025-01-13 (Mon): 6 days used, 5 refunded. */
  lemma RecallJanuary2025Example()
    ensures RecallSplit(20094, 20105, 20101) == RecallSummary(6, 5)
  {
    WeekCount(SundayOnly, 20094);
    MondayToFridayCount(SundayOnly, 20101);
  }

  /**
   * The balance after a refund: remaining_days of that one row grows by exactly
   * `days`, with no cap, when days > 0 and the row exists; otherwise nothing changes.
   */
  function Refunded(balances: map<BalanceKey, int>, key: BalanceKey, days: nat): (r: map<BalanceKey, int>)
    ensures r.Keys == balances.Keys
    ensures forall k :: k in balances && k != key ==> r[k] == balances[k]
    ensures key in balances ==> r[key] == balances[key] + days
  {
    if days > 0 && key in balances then balances[key := balances[key] + days] else balances
  }

  /**
   * The newResumptionDate argument: a date; null; or a value `new Date` cannot
   * read (undefined, an empty or malformed string), an Invalid Date.
   */
  datatype ResumptionArg = ResumeOn(day: Day) | NullDate | Unreadable

  /** The split recallLeaveWithRefund computes for a readable argument. */
  function ArgSplit(start: Day, end: Day, arg: ResumptionArg): RecallSummary
    requires !arg.Unreadable?
  {
    if arg.ResumeOn? then RecallSplit(start, end, arg.day) else NullDateSplit(start)
  }

  /** The recall_date column written for a readable argument. */
  function ArgRecallDate(arg: ResumptionArg): Option<Day> {
    if arg.ResumeOn? then Some(arg.day) else None
  }

  /** Why recallLeaveWithRefund throws. */
  datatype RecallError =
    | ApplicationNotFound     // the joined fetch found no row (.single() fails)
    | InvalidResumptionDate   // an Invalid Date: toISOString throws before anything is written
    | StatusWriteFailed       // the recall update was refused: nothing is written
    | RefundWriteFailed       // the balance update failed after the status was written

  /**
   * The recall fetch joins employees and leave_plans with !inner, so it finds
   * the application only when its employee and plan rows exist.
   */
  predicate RecallFetchFinds(
    applications: map<ApplicationId, LeaveApplication>, plans: map<PlanId, LeavePlan>,
    employees: set<EmployeeId>, id: ApplicationId)
  {
    && id in applications
    && applications[id].planId in plans
    && applications[id].employeeId.Some?
    && applications[id].employeeId.value in employees
  }

  /** The update recallLeaveWithRefund writes: status, reviewer, timestamp and the recall columns together. */
  function RecallPatch(recallDate: Option<Day>, recallReason: string, reviewedBy: Option<Uid>, now: Timestamp, split: RecallSummary)
    : (p: StatusPatch)
    ensures p.status == Recalled && p.reviewedAt == now && p.reviewedBy == reviewedBy
    ensures p.recall == Some(RecallDetails(recallDate, recallReason, split.daysUsed, split.daysToRefund))
  {
    StatusPatch(Recalled, now, reviewedBy, Some(RecallDetails(recallDate, recallReason, split.daysUsed, split.daysToRefund)))
  }

  /** The leave tables of the hosted database. */
  class LeaveDatabase {
    var applications: map<ApplicationId, LeaveApplication>
    var plans: map<PlanId, LeavePlan>
    var employees: set<EmployeeId>
    /** leave_balances: remaining_days per (employee, plan). */
    var balances: map<BalanceKey, int>
    var notifications: seq<Notification>

    constructor (
      applications: map<ApplicationId, LeaveApplication>, plans: map<PlanId, LeavePlan>,
      employees: set<EmployeeId>, balances: map<BalanceKey, int>)
      ensures this.applications == applications && this.plans == plans
      ensures this.employees == employees && this.balances == balances
      ensures notifications == []
    {
      this.applications := applications;
      this.plans := plans;
      this.employees := employees;
      this.balances := balances;
      notifications := [];
    }

    /** getLeaveApplicationForNotification: the row with that id; `.single()` fails when there is none. */
    method GetLeaveApplication(id: ApplicationId) returns (r: Result<LeaveApplication, RecallError>)
      ensures id in applications ==> r == Success(applications[id])
      ensures id !in applications ==> r == Failure(ApplicationNotFound)
    {
      if id in applications {
        r := Success(applications[id]);
      } else {
        r := Failure(ApplicationNotFound);
      }
    }

    /**
     * updateLeaveStatus: patches the row with that id; an id that matches no
     * row changes nothing. `writeOk` is the store's answer: when it refuses
     * the update, the call throws and nothing is written.
     */
    method UpdateLeaveStatus(id: ApplicationId, patch: StatusPatch, writeOk: bool) returns (ok: bool)
      modifies this`applications
      ensures ok == writeOk
      ensures applications == if writeOk then Patched(old(applications), id, patch) else old(applications)
    {
      ok := writeOk;
      if writeOk && id in applications {
        applications := applications[id := ApplyPatch(applications[id], patch)];
      }
    }

    /** createLeavePlan: inserts the payload and returns the stored row, or fails. */
    method CreateLeavePlan(payload: PlanPayload, outcome: PlanInsertOutcome) returns (r: Option<LeavePlan>)
      modifies this`plans
      ensures outcome.InsertRejected? ==> r.None? && plans == old(plans)
      ensures outcome.Inserted? ==>
                r == Some(StoredPlan(outcome.id, payload, outcome.isPaid))
                && plans == old(plans)[outcome.id := r.value]
    {
      if outcome.InsertRejected? {
        return None;
      }
      var row := StoredPlan(outcome.id, payload, outcome.isPaid);
      plans := plans[outcome.id := row];
      r := Some(row);
    }

    /** updateLeavePlan: edits the plan with that id, if there is one; a refused update throws and writes nothing. */
    method UpdateLeavePlan(id: PlanId, update: PlanUpdate, writeOk: bool) returns (ok: bool)
      modifies this`plans
      ensures ok == writeOk
      ensures writeOk && id in old(plans) ==> plans == old(plans)[id := EditedPlan(old(plans)[id], update)]
      ensures !writeOk || id !in old(plans) ==> plans == old(plans)
    {
      ok := writeOk;
      if writeOk && id in plans {
        plans := plans[id := EditedPlan(plans[id], update)];
      }
    }

    /**
     * softDeleteLeavePlan: sets is_active to false on the plan with that id.
     * An undefined id (None) is sent as the filter `id=eq.undefined`: the store
     * either refuses it (`writeOk` false, the call throws) or matches no row.
     */
    method SoftDeleteLeavePlan(id: Option<PlanId>, writeOk: bool) returns (ok: bool)
      modifies this`plans
      ensures ok == writeOk
      ensures writeOk && id.Some? && id.value in old(plans) ==>
                plans == old(plans)[id.value := old(plans)[id.value].(isActive := false)]
      ensures !writeOk || id.None? || id.value !in old(plans) ==> plans == old(plans)
    {
      ok := writeOk;
      if writeOk && id.Some? && id.value in plans {
        plans := plans[id.value := plans[id.value].(isActive := false)];
      }
    }

    /** insertNotification: appends the row when the store accepts it; `ok` is false when the insert throws. */
    method InsertNotification(n: Notification, delivered: bool) returns (ok: bool)
      modifies this`notifications
      ensures ok == delivered
      ensures notifications == if delivered then old(notifications) + [n] else old(notifications)
    {
      if delivered {
        notifications := notifications + [n];
      }
      ok := delivered;
    }

    /**
     * recallLeaveWithRefund, step by step: fetch the application (with its
     * employee and plan), compute the split, write the recall columns, then
     * credit the balance by daysToRefund when that is positive and a balance
     * row exists. The status is written before the credit, so a failed credit
     * leaves a recalled application with its balance untouched.
     * `statusWriteOk` and `refundWriteOk` are the store's answers to the
     * status update and to the balance update.
     */
    method RecallLeaveWithRefund(
      id: ApplicationId, newResumptionDate: ResumptionArg, recallReason: string,
      reviewedBy: Option<Uid>, now: Timestamp, statusWriteOk: bool, refundWriteOk: bool)
      returns (r: Result<RecallSummary, RecallError>)
      modifies this`applications, this`balances
      ensures !RecallFetchFinds(old(applications), plans, employees, id) ==>
                r == Failure(ApplicationNotFound)
                && applications == old(applications) && balances == old(balances)
      ensures RecallFetchFinds(old(applications), plans, employees, id) && newResumptionDate.Unreadable? ==>
                r == Failure(InvalidResumptionDate)
                && applications == old(applications) && balances == old(balances)
      ensures RecallFetchFinds(old(applications), plans, employees, id) && !newResumptionDate.Unreadable? && !statusWriteOk ==>
                r == Failure(StatusWriteFailed)
                && applications == old(applications) && balances == old(balances)
      ensures RecallFetchFinds(old(applications), plans, employees, id) && !newResumptionDate.Unreadable? && statusWriteOk ==>
                var app := old(applications)[id];
                var split := ArgSplit(app.startDate, app.endDate, newResumptionDate);
                var key := (app.employeeId.value, app.planId);
                && applications == Patched(old(applications), id,
                                           RecallPatch(ArgRecallDate(newResumptionDate), recallReason, reviewedBy, now, split))
                && (if split.daysToRefund > 0 && key in old(balances) && !refundWriteOk
                    then r == Failure(RefundWriteFailed) && balances == old(balances)
                    else r == Success(split) && balances == Refunded(old(balances), key, split.daysToRefund))
    {
      // 1. Fetch the application with its employee and plan.
      if !RecallFetchFinds(applications, plans, employees, id) {
        return Failure(ApplicationNotFound);
      }
      var app := applications[id];
      var employeeId, planId := app.employeeId.value, app.planId;

      // 2. The two counts.
      if newResumptionDate.Unreadable? {
        return Failure(InvalidResumptionDate);
      }
      // `new Date(null)` is day 0; calculateWorkingDays(null, end) returns 0.
      var resume := if newResumptionDate.ResumeOn? then newResumptionDate.day else 0;
      var refundFrom := if newResumptionDate.ResumeOn? then Some(resume) else None;
      var daysUsed := CalculateWorkingDays(Some(app.startDate), Some(resume - 1));
      var daysToRefund := CalculateWorkingDays(refundFrom, Some(app.endDate));
      var split := RecallSummary(daysUsed, daysToRefund);

      // 3. The status update.
      var patch := RecallPatch(ArgRecallDate(newResumptionDate), recallReason, reviewedBy, now, split);
      var written := UpdateLeaveStatus(id, patch, statusWriteOk);
      if !written {
        return Failure(StatusWriteFailed);
      }

      // 4. The refund, a read-modify-write of remaining_days.
      if daysToRefund > 0 {
        var key := (employeeId, planId);
        if key in balances {
          if !refundWriteOk {
            return Failure(RefundWriteFailed);
          }
          var newBalance := balances[key] + daysToRefund;
          balances := balances[key := newBalance];
        }
      }
      r := Success(split);
    }
  }
}
