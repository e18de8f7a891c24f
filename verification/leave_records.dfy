/** The rows of the leave_plans, leave_applications, leave_balances and notifications tables. */
module LeaveRecords {
  import opened Wrappers
  import opened Calendar

  type ApplicationId = nat
  type PlanId = nat
  type EmployeeId = nat
  /** The identity provider's user id of the signed-in reviewer. */
  type Uid = string
  /** An instant, in milliseconds. */
  type Timestamp = int

  /** A leave_plans row. Nullable columns are Options; `isActive` false is a soft delete. */
  datatype LeavePlan = LeavePlan(
    id: PlanId,
    name: string,
    durationDays: Option<int>,
    isPaid: Option<bool>,
    allowRecall: Option<bool>,
    isActive: bool)

  datatype Status = Pending | Approved | Rejected | Recalled

  /** The recall columns, which only the refund routine writes, all in one update; a null recall_date is None. */
  datatype RecallDetails = RecallDetails(recallDate: Option<Day>, recallReason: string, daysUsed: nat, daysRefunded: nat)

  /** A leave_applications row. */
  datatype LeaveApplication = LeaveApplication(
    id: ApplicationId,
    employeeId: Option<EmployeeId>,
    planId: PlanId,
    startDate: Day,
    endDate: Day,
    durationDays: nat,
    reason: string,
    status: Status,
    reviewedAt: Option<Timestamp>,
    reviewedBy: Option<Uid>,
    recall: Option<RecallDetails>)

  /**
   * The object passed to updateLeaveStatus. A `reviewedBy` of None is an
   * undefined value, which the client drops from the update, so the column keeps
   * its value; likewise `recall` None leaves the recall columns alone.
   */
  datatype StatusPatch = StatusPatch(
    status: Status,
    reviewedAt: Timestamp,
    reviewedBy: Option<Uid>,
    recall: Option<RecallDetails>)

  /** The row after the patch is written: the given columns change, all others keep their values. */
  function ApplyPatch(app: LeaveApplication, patch: StatusPatch): (r: LeaveApplication)
    ensures r.status == patch.status && r.reviewedAt == Some(patch.reviewedAt)
    ensures r.reviewedBy == (if patch.reviewedBy.Some? then patch.reviewedBy else app.reviewedBy)
    ensures r.recall == (if patch.recall.Some? then patch.recall else app.recall)
    ensures r.(status := app.status, reviewedAt := app.reviewedAt, reviewedBy := app.reviewedBy, recall := app.recall) == app
  {
    app.(status := patch.status,
         reviewedAt := Some(patch.reviewedAt),
         reviewedBy := if patch.reviewedBy.Some? then patch.reviewedBy else app.reviewedBy,
         recall := if patch.recall.Some? then patch.recall else app.recall)
  }

  /** A leave_balances row is identified by (employee, plan); its value is remaining_days. */
  type BalanceKey = (EmployeeId, PlanId)

  datatype NotificationKind = LeaveApproved | LeaveDeclined | LeaveRecalled(resumeOn: Day)

  /** A notifications row (its title and message text are not modelled). */
  datatype Notification = Notification(employeeId: EmployeeId, applicationId: ApplicationId, kind: NotificationKind)

  /** The object passed to createLeavePlan. */
  datatype PlanPayload = PlanPayload(name: string, durationDays: Option<int>, isActive: bool, allowRecall: bool)

  /** The object passed to updateLeavePlan. */
  datatype PlanUpdate = PlanUpdate(name: string, durationDays: Option<int>, allowRecall: bool)

  /** A plan with an edit applied: name, duration and allow_recall change, id, is_paid and is_active stay. */
  function EditedPlan(p: LeavePlan, u: PlanUpdate): (r: LeavePlan)
    ensures r.id == p.id && r.isPaid == p.isPaid && r.isActive == p.isActive
    ensures r.name == u.name && r.durationDays == u.durationDays && r.allowRecall == Some(u.allowRecall)
  {
    p.(name := u.name, durationDays := u.durationDays, allowRecall := Some(u.allowRecall))
  }

  /** The row the store keeps for an inserted payload: the payload plus the new id and the is_paid default. */
  function StoredPlan(id: PlanId, payload: PlanPayload, isPaid: Option<bool>): (r: LeavePlan)
    ensures r.id == id && r.isPaid == isPaid
    ensures r.name == payload.name && r.durationDays == payload.durationDays
    ensures r.allowRecall == Some(payload.allowRecall) && r.isActive == payload.isActive
  {
    LeavePlan(id, payload.name, payload.durationDays, isPaid, Some(payload.allowRecall), payload.isActive)
  }

  /** What the store answers to an insert into leave_plans. */
  datatype PlanInsertOutcome =
    | InsertRejected
    | Inserted(id: PlanId, isPaid: Option<bool>)  // the new row's id and is_paid column default
}
