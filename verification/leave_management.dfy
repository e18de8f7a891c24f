/**
 * The admin leave page: the list updates it hands to its state setters, and
 * its handlers, which persist a change, send a notification, then update the
 * page's lists.
 */
module LeaveManagement {
  import opened Wrappers
  import opened Calendar
  import opened Text
  import opened Seqs
  import opened LeaveRecords
  import opened LeaveService

  // ---------------------------------------------------------------------------
  // List updates

  /** `prev.map(app => app.id === id ? { ...app, status } : app)`. */
  function SetStatusWhere(apps: seq<LeaveApplication>, id: ApplicationId, status: Status): (r: seq<LeaveApplication>)
    ensures |r| == |apps|
    ensures forall i :: 0 <= i < |apps| && apps[i].id != id ==> r[i] == apps[i]
    ensures forall i :: 0 <= i < |apps| && apps[i].id == id ==>
              r[i].status == status && r[i].(status := apps[i].status) == apps[i]
  {
    if apps == [] then []
    else [if apps[0].id == id then apps[0].(status := status) else apps[0]] + SetStatusWhere(apps[1..], id, status)
  }

  /** Setting the same status twice is the same as setting it once. */
  lemma {:induction false} SetStatusWhereIdempotent(apps: seq<LeaveApplication>, id: ApplicationId, status: Status)
    ensures SetStatusWhere(SetStatusWhere(apps, id, status), id, status) == SetStatusWhere(apps, id, status)
  {
    if apps != [] {
      SetStatusWhereIdempotent(apps[1..], id, status);
    }
  }

  /** `prev.map(p => p.id === id ? { ...p, name, duration_days, allow_recall } : p)`. */
  function EditPlanWhere(plans: seq<LeavePlan>, id: PlanId, update: PlanUpdate): (r: seq<LeavePlan>)
    ensures |r| == |plans|
    ensures forall i :: 0 <= i < |plans| && plans[i].id != id ==> r[i] == plans[i]
    ensures forall i :: 0 <= i < |plans| && plans[i].id == id ==> r[i] == EditedPlan(plans[i], update)
  {
    if plans == [] then []
    else [if plans[0].id == id then EditedPlan(plans[0], update) else plans[0]] + EditPlanWhere(plans[1..], id, update)
  }

  /** The test `p => p.id !== target`; a None target is JavaScript's undefined. */
  function IdDiffers(target: Option<PlanId>): LeavePlan -> bool {
    (p: LeavePlan) => Some(p.id) != target
  }

  /** `prev.filter(p => p.id !== target)`. */
  function RemovePlansWithId(plans: seq<LeavePlan>, target: Option<PlanId>): (r: seq<LeavePlan>)
    ensures forall p :: p in r <==> p in plans && Some(p.id) != target
  {
    Filter(plans, IdDiffers(target))
  }

  /** Comparing against undefined removes nothing: the list comes back unchanged. */
  lemma UndefinedIdRemovesNothing(plans: seq<LeavePlan>)
    ensures RemovePlansWithId(plans, None) == plans
  {
    FilterKeepsAll(plans, IdDiffers(None));
  }

  /** `prev.filter(l => l.id !== id)` on the ongoing-leave list. */
  function RemoveLeaveWithId(leaves: seq<LeaveApplication>, id: ApplicationId): (r: seq<LeaveApplication>)
    ensures forall l :: l in r <==> l in leaves && l.id != id
  {
    Filter(leaves, (l: LeaveApplication) => l.id != id)
  }

  // ---------------------------------------------------------------------------
  // Forms

  /** The create form is refused when the name or the duration is empty. */
  datatype FormError = MissingNameOrDuration

  /** handleCreateLeaveSetting's check and payload. */
  function CreatePayload(leavePlanName: string, durationDays: string, allowRecall: string)
    : (r: Result<PlanPayload, FormError>)
    ensures r.Failure? <==> leavePlanName == "" || durationDays == ""
    ensures r.Success? ==>
              && r.value.name == leavePlanName
              && r.value.durationDays == NumberValue(durationDays)
              && r.value.isActive
              && (r.value.allowRecall <==> allowRecall == "Yes")
  {
    if leavePlanName == "" || durationDays == "" then Failure(MissingNameOrDuration)
    else Success(PlanPayload(leavePlanName, NumberValue(durationDays), true, allowRecall == "Yes"))
  }

  /** The edit form's duration: the number loaded from the plan row, or text typed since. */
  datatype DurationField = FromRow(value: Option<int>) | Typed(text: string)

  /** Number(editDuration): Number(null) is 0; typed text goes through NumberValue. */
  function DurationNumber(f: DurationField): Option<int> {
    match f
    case FromRow(v) => if v.Some? then v else Some(0)
    case Typed(t) => NumberValue(t)
  }

  /** What the edit form starts with for a plan: `plan.allow_recall ? "Yes" : "No"`. */
  function RecallChoice(allowRecall: Option<bool>): string {
    if allowRecall == Some(true) then "Yes" else "No"
  }

  /** handleSaveEdit's update object. */
  function EditUpdate(editName: string, editDuration: DurationField, editAllowRecall: string): (u: PlanUpdate)
    ensures u.name == editName && u.durationDays == DurationNumber(editDuration)
    ensures u.allowRecall <==> editAllowRecall == "Yes"
  {
    PlanUpdate(editName, DurationNumber(editDuration), editAllowRecall == "Yes")
  }

  /**
   * Saving an edit form exactly as StartEdit filled it leaves a plan whose
   * duration and allow_recall are set unchanged, except that a null
   * allow_recall becomes false and a null duration becomes `Number(null)`, 0.
   */
  lemma UnchangedEditKeepsPlan(p: LeavePlan)
    ensures p.durationDays.Some? && p.allowRecall.Some? ==>
              EditedPlan(p, EditUpdate(p.name, FromRow(p.durationDays), RecallChoice(p.allowRecall))) == p
    ensures p.durationDays.Some? && p.allowRecall.None? ==>
              EditedPlan(p, EditUpdate(p.name, FromRow(p.durationDays), RecallChoice(p.allowRecall)))
              == p.(allowRecall := Some(false))
    ensures p.durationDays.None? ==>
              EditedPlan(p, EditUpdate(p.name, FromRow(p.durationDays), RecallChoice(p.allowRecall)))
              == p.(durationDays := Some(0), allowRecall := Some(p.allowRecall == Some(true)))
  {
    var u := EditUpdate(p.name, FromRow(p.durationDays), RecallChoice(p.allowRecall));
    assert "No"[0] != "Yes"[0];
    assert u.allowRecall <==> p.allowRecall == Some(true);
    assert u.durationDays == if p.durationDays.Some? then p.durationDays else Some(0);
    var e := EditedPlan(p, u);
    assert e.name == p.name && e.durationDays == u.durationDays && e.id == p.id;
    if p.allowRecall.Some? {
      assert e.allowRecall == Some(p.allowRecall.value) by {
        if p.allowRecall.value { assert u.allowRecall; } else { assert !u.allowRecall; }
      }
    }
  }

  /** What handleDeleteLeavePlan receives: a plan row, or (from the settings table) only its id. */
  datatype DeleteTarget = PlanRow(plan: LeavePlan) | BareId(id: PlanId)

  /** `planToDelete.id`: the id of a plan row; undefined (None) for a bare id. */
  function TargetId(t: DeleteTarget): Option<PlanId> {
    match t
    case PlanRow(p) => Some(p.id)
    case BareId(_) => None
  }

  /** `!planToDelete`: nothing to delete, or the bare id 0, which JavaScript finds falsy. */
  predicate NothingToDelete(t: Option<DeleteTarget>) {
    t.None? || t == Some(BareId(0))
  }

  /** Deleting through a plan row removes exactly the plans with that row's id. */
  lemma DeletePlanRowRemovesIt(plans: seq<LeavePlan>, p: LeavePlan)
    ensures forall q :: q in RemovePlansWithId(plans, TargetId(PlanRow(p))) <==> q in plans && q.id != p.id
  {
  }

  /** The settings table passes `plan.id`, so the confirmed delete keeps every plan in the list. */
  lemma DeleteFromSettingsTableKeepsEveryPlan(plans: seq<LeavePlan>, p: LeavePlan)
    ensures RemovePlansWithId(plans, TargetId(BareId(p.id))) == plans
  {
    UndefinedIdRemovesNothing(plans);
  }

  // ---------------------------------------------------------------------------
  // Notifications

  /** An id JavaScript finds truthy: present (not null or undefined) and not 0. */
  predicate TruthyId(id: Option<nat>) {
    id.Some? && id.value != 0
  }

  /**
   * createLeaveNotification's effect: skipped when the employee id or the
   * application id is falsy; a failed insert is swallowed.
   */
  function Notified(
    notifications: seq<Notification>, employeeId: Option<EmployeeId>, applicationId: Option<ApplicationId>,
    kind: NotificationKind, delivered: bool): (r: seq<Notification>)
    ensures employeeId.None? || employeeId.value == 0 || applicationId.None? || applicationId.value == 0 || !delivered ==>
              r == notifications
    ensures employeeId.Some? && employeeId.value != 0 && applicationId.Some? && applicationId.value != 0 && delivered ==>
              r == notifications + [Notification(employeeId.value, applicationId.value, kind)]
  {
    if TruthyId(employeeId) && TruthyId(applicationId) && delivered
    then notifications + [Notification(employeeId.value, applicationId.value, kind)]
    else notifications
  }

  /** How a handler ended. */
  datatype HandlerResult =
    | Done
    | Ignored   // nothing selected: the handler returns at once
    | Refused   // the form check failed: an alert, no change
    | Failed    // an exception was caught: logged or alerted, no change

  /** The two review decisions of the history tab. */
  datatype Decision = Approve | Reject

  function DecisionStatus(d: Decision): Status {
    match d
    case Approve => Approved
    case Reject => Rejected
  }

  function DecisionNotice(d: Decision): NotificationKind {
    match d
    case Approve => LeaveApproved
    case Reject => LeaveDeclined
  }

  /**
   * The review handlers go ahead only for an id JavaScript finds truthy (so
   * not 0) whose row the fetch finds.
   */
  predicate Reviewable(id: ApplicationId, applications: map<ApplicationId, LeaveApplication>) {
    id != 0 && id in applications
  }

  // ---------------------------------------------------------------------------
  // The page

  class LeavePage {
    const db: LeaveDatabase
    /** The signed-in admin's uid, from the stored session. */
    var currentUser: Option<Uid>

    var leaveApplications: seq<LeaveApplication>
    var leavePlans: seq<LeavePlan>
    var ongoingLeaves: seq<LeaveApplication>

    // create form
    var leavePlanName: string
    var durationDays: string
    var allowRecall: string

    // edit form
    var editingPlan: Option<LeavePlan>
    var editName: string
    var editDuration: DurationField
    var editAllowRecall: string

    // dialogs
    var planToDelete: Option<DeleteTarget>
    var selectedApplication: Option<LeaveApplication>
    var selectedRecallLeave: Option<LeaveApplication>
    var recallNewResumptionDate: Option<Day>

    /** The page after its three loads: the lists are what the queries returned. */
    constructor (
      db: LeaveDatabase, currentUser: Option<Uid>, applications: seq<LeaveApplication>,
      plans: seq<LeavePlan>, ongoing: seq<LeaveApplication>)
      ensures this.db == db && this.currentUser == currentUser
      ensures leaveApplications == applications && leavePlans == plans && ongoingLeaves == ongoing
      ensures leavePlanName == "" && durationDays == "" && allowRecall == ""
      ensures editingPlan.None? && planToDelete.None? && selectedApplication.None?
      ensures selectedRecallLeave.None? && recallNewResumptionDate.None?
    {
      this.db := db;
      this.currentUser := currentUser;
      leaveApplications, leavePlans, ongoingLeaves := applications, plans, ongoing;
      leavePlanName, durationDays, allowRecall := "", "", "";
      editingPlan, editName, editDuration, editAllowRecall := None, "", Typed(""), "";
      planToDelete, selectedApplication := None, None;
      selectedRecallLeave, recallNewResumptionDate := None, None;
    }

    /** createLeaveNotification. */
    method CreateLeaveNotification(
      employeeId: Option<EmployeeId>, applicationId: Option<ApplicationId>, kind: NotificationKind, delivered: bool)
      modifies db`notifications
      ensures db.notifications == Notified(old(db.notifications), employeeId, applicationId, kind, delivered)
    {
      if !TruthyId(employeeId) || !TruthyId(applicationId) {
        return;
      }
      var _ := db.InsertNotification(Notification(employeeId.value, applicationId.value, kind), delivered);
    }

    /** The create form's change handlers. */
    method FillCreateForm(name: string, duration: string, recall: string)
      modifies this`leavePlanName, this`durationDays, this`allowRecall
      ensures leavePlanName == name && durationDays == duration && allowRecall == recall
    {
      leavePlanName, durationDays, allowRecall := name, duration, recall;
    }

    /**
     * handleCreateLeaveSetting: refuse an empty name or duration; otherwise
     * insert the payload and, when the store accepts it, append the stored
     * row to the list and clear the form. `outcome` is the store's answer.
     */
    method CreateLeaveSetting(outcome: PlanInsertOutcome) returns (result: HandlerResult)
      modifies this`leavePlans, this`leavePlanName, this`durationDays, this`allowRecall, db`plans
      ensures CreatePayload(old(leavePlanName), old(durationDays), old(allowRecall)).Failure? ==>
                result == Refused && leavePlans == old(leavePlans) && db.plans == old(db.plans)
                && leavePlanName == old(leavePlanName) && durationDays == old(durationDays)
                && allowRecall == old(allowRecall)
      ensures CreatePayload(old(leavePlanName), old(durationDays), old(allowRecall)).Success? ==>
                var payload := CreatePayload(old(leavePlanName), old(durationDays), old(allowRecall)).value;
                if outcome.InsertRejected? then
                  result == Failed && leavePlans == old(leavePlans) && db.plans == old(db.plans)
                  && leavePlanName == old(leavePlanName) && durationDays == old(durationDays)
                  && allowRecall == old(allowRecall)
                else
                  var row := StoredPlan(outcome.id, payload, outcome.isPaid);
                  result == Done && db.plans == old(db.plans)[outcome.id := row]
                  && leavePlans == old(leavePlans) + [row]
                  && leavePlanName == "" && durationDays == "" && allowRecall == ""
    {
      var checked := CreatePayload(leavePlanName, durationDays, allowRecall);
      if checked.Failure? {
        return Refused;
      }
      var data := db.CreateLeavePlan(checked.value, outcome);
      if data.None? {
        return Failed;
      }
      leavePlans := leavePlans + [data.value];
      leavePlanName, durationDays, allowRecall := "", "", "";
      result := Done;
    }

    /** handleApproveLeaveClick / handleRejectLeaveClick: remember the application the dialog is about. */
    method SelectApplication(app: LeaveApplication)
      modifies this`selectedApplication
      ensures selectedApplication == Some(app)
    {
      selectedApplication := Some(app);
    }

    /**
     * The shared body of confirmApproveLeave and confirmRejectLeave: fetch the
     * row, write status, reviewed_at and reviewed_by, notify, then set the
     * status on the matching entries of the history list. No balance changes.
     * `writeOk` is the store's answer to the status update; a refused update
     * is thrown, caught and alerted, and nothing else happens.
     */
    method ConfirmReview(decision: Decision, now: Timestamp, writeOk: bool, delivered: bool) returns (result: HandlerResult)
      modifies this`leaveApplications, this`selectedApplication, db`applications, db`notifications
      ensures db.balances == old(db.balances) && db.plans == old(db.plans)
      ensures old(selectedApplication).None? ==>
                result == Ignored && leaveApplications == old(leaveApplications)
                && db.applications == old(db.applications) && db.notifications == old(db.notifications)
                && selectedApplication == old(selectedApplication)
      ensures old(selectedApplication).Some? && !Reviewable(old(selectedApplication).value.id, old(db.applications)) ==>
                result == Failed && leaveApplications == old(leaveApplications)
                && db.applications == old(db.applications) && db.notifications == old(db.notifications)
                && selectedApplication == old(selectedApplication)
      ensures old(selectedApplication).Some? && Reviewable(old(selectedApplication).value.id, old(db.applications)) && !writeOk ==>
                result == Failed && leaveApplications == old(leaveApplications)
                && db.applications == old(db.applications) && db.notifications == old(db.notifications)
                && selectedApplication == old(selectedApplication)
      ensures old(selectedApplication).Some? && Reviewable(old(selectedApplication).value.id, old(db.applications)) && writeOk ==>
                var id := old(selectedApplication).value.id;
                var row := old(db.applications)[id];
                && result == Done
                && db.applications == Patched(old(db.applications), id, StatusPatch(DecisionStatus(decision), now, currentUser, None))
                && db.notifications == Notified(old(db.notifications), row.employeeId, Some(row.id), DecisionNotice(decision), delivered)
                && leaveApplications == SetStatusWhere(old(leaveApplications), id, DecisionStatus(decision))
                && selectedApplication.None?
    {
      if selectedApplication.None? {
        return Ignored;
      }
      var applicationId := selectedApplication.value.id;
      if applicationId == 0 {
        return Failed;
      }
      var appRow := db.GetLeaveApplication(applicationId);
      if appRow.Failure? {
        return Failed;
      }
      var written := db.UpdateLeaveStatus(applicationId, StatusPatch(DecisionStatus(decision), now, currentUser, None), writeOk);
      if !written {
        return Failed;
      }
      CreateLeaveNotification(appRow.value.employeeId, Some(appRow.value.id), DecisionNotice(decision), delivered);
      leaveApplications := SetStatusWhere(leaveApplications, applicationId, DecisionStatus(decision));
      selectedApplication := None;
      result := Done;
    }

    /** confirmApproveLeave: status "approved" with reviewer and time; no balance is debited. */
    method ConfirmApproveLeave(now: Timestamp, writeOk: bool, delivered: bool) returns (result: HandlerResult)
      modifies this`leaveApplications, this`selectedApplication, db`applications, db`notifications
      ensures db.balances == old(db.balances) && db.plans == old(db.plans)
      ensures old(selectedApplication).None? ==>
                result == Ignored && leaveApplications == old(leaveApplications)
                && db.applications == old(db.applications) && db.notifications == old(db.notifications)
                && selectedApplication == old(selectedApplication)
      ensures old(selectedApplication).Some? && !Reviewable(old(selectedApplication).value.id, old(db.applications)) ==>
                result == Failed && leaveApplications == old(leaveApplications)
                && db.applications == old(db.applications) && db.notifications == old(db.notifications)
                && selectedApplication == old(selectedApplication)
      ensures old(selectedApplication).Some? && Reviewable(old(selectedApplication).value.id, old(db.applications)) && !writeOk ==>
                result == Failed && leaveApplications == old(leaveApplications)
                && db.applications == old(db.applications) && db.notifications == old(db.notifications)
                && selectedApplication == old(selectedApplication)
      ensures old(selectedApplication).Some? && Reviewable(old(selectedApplication).value.id, old(db.applications)) && writeOk ==>
                var id := old(selectedApplication).value.id;
                var row := old(db.applications)[id];
                && result == Done
                && db.applications == Patched(old(db.applications), id, StatusPatch(Approved, now, currentUser, None))
                && db.notifications == Notified(old(db.notifications), row.employeeId, Some(row.id), LeaveApproved, delivered)
                && leaveApplications == SetStatusWhere(old(leaveApplications), id, Approved)
                && selectedApplication.None?
    {
      result := ConfirmReview(Approve, now, writeOk, delivered);
    }

    /** confirmRejectLeave: status "rejected" with reviewer and time; no balance change. */
    method ConfirmRejectLeave(now: Timestamp, writeOk: bool, delivered: bool) returns (result: HandlerResult)
      modifies this`leaveApplications, this`selectedApplication, db`applications, db`notifications
      ensures db.balances == old(db.balances) && db.plans == old(db.plans)
      ensures old(selectedApplication).None? ==>
                result == Ignored && leaveApplications == old(leaveApplications)
                && db.applications == old(db.applications) && db.notifications == old(db.notifications)
                && selectedApplication == old(selectedApplication)
      ensures old(selectedApplication).Some? && !Reviewable(old(selectedApplication).value.id, old(db.applications)) ==>
                result == Failed && leaveApplications == old(leaveApplications)
                && db.applications == old(db.applications) && db.notifications == old(db.notifications)
                && selectedApplication == old(selectedApplication)
      ensures old(selectedApplication).Some? && Reviewable(old(selectedApplication).value.id, old(db.applications)) && !writeOk ==>
                result == Failed && leaveApplications == old(leaveApplications)
                && db.applications == old(db.applications) && db.notifications == old(db.notifications)
                && selectedApplication == old(selectedApplication)
      ensures old(selectedApplication).Some? && Reviewable(old(selectedApplication).value.id, old(db.applications)) && writeOk ==>
                var id := old(selectedApplication).value.id;
                var row := old(db.applications)[id];
                && result == Done
                && db.applications == Patched(old(db.applications), id, StatusPatch(Rejected, now, currentUser, None))
                && db.notifications == Notified(old(db.notifications), row.employeeId, Some(row.id), LeaveDeclined, delivered)
                && leaveApplications == SetStatusWhere(old(leaveApplications), id, Rejected)
                && selectedApplication.None?
    {
      result := ConfirmReview(Reject, now, writeOk, delivered);
    }

    /** handleStartEdit: fill the edit form from the plan. */
    method StartEdit(plan: LeavePlan)
      modifies this`editingPlan, this`editName, this`editDuration, this`editAllowRecall
      ensures editingPlan == Some(plan) && editName == plan.name
      ensures editDuration == FromRow(plan.durationDays) && editAllowRecall == RecallChoice(plan.allowRecall)
    {
      editingPlan := Some(plan);
      editName := plan.name;
      editDuration := FromRow(plan.durationDays);
      editAllowRecall := RecallChoice(plan.allowRecall);
    }

    /** The edit form's change handlers. */
    method FillEditForm(name: string, durationText: string, recall: string)
      modifies this`editName, this`editDuration, this`editAllowRecall
      ensures editName == name && editDuration == Typed(durationText) && editAllowRecall == recall
    {
      editName, editDuration, editAllowRecall := name, Typed(durationText), recall;
    }

    /**
     * handleSaveEdit: write name, duration and allow_recall to the plan being
     * edited, then apply the same edit to the matching entries of the list.
     * Without a plan being edited, `editingPlan.id` throws and nothing changes;
     * so does a refused update (`writeOk` is the store's answer), which
     * leaves the form open.
     */
    method SaveEdit(writeOk: bool) returns (result: HandlerResult)
      modifies this`leavePlans, this`editingPlan, db`plans
      ensures old(editingPlan).None? ==>
                result == Failed && leavePlans == old(leavePlans) && db.plans == old(db.plans) && editingPlan.None?
      ensures old(editingPlan).Some? && !writeOk ==>
                result == Failed && leavePlans == old(leavePlans) && db.plans == old(db.plans)
                && editingPlan == old(editingPlan)
      ensures old(editingPlan).Some? && writeOk ==>
                var id := old(editingPlan).value.id;
                var update := EditUpdate(editName, editDuration, editAllowRecall);
                && result == Done
                && db.plans == (if id in old(db.plans) then old(db.plans)[id := EditedPlan(old(db.plans)[id], update)] else old(db.plans))
                && leavePlans == EditPlanWhere(old(leavePlans), id, update)
                && editingPlan.None?
    {
      if editingPlan.None? {
        return Failed;
      }
      var id := editingPlan.value.id;
      var update := EditUpdate(editName, editDuration, editAllowRecall);
      var written := db.UpdateLeavePlan(id, update, writeOk);
      if !written {
        return Failed;
      }
      leavePlans := EditPlanWhere(leavePlans, id, update);
      editingPlan := None;
      result := Done;
    }

    /** handleDeleteLeavePlan: remember what to delete and open the confirmation. */
    method DeleteLeavePlan(target: DeleteTarget)
      modifies this`planToDelete
      ensures planToDelete == Some(target)
    {
      planToDelete := Some(target);
    }

    /**
     * confirmDeletePlan: soft-delete `planToDelete.id` and drop the plans with
     * that id from the list. When the target is a bare id, `.id` is undefined:
     * the store is asked for `id=eq.undefined` and no plan leaves the list.
     * `writeOk` is the store's answer; a refused delete is alerted and the
     * dialog keeps its target.
     */
    method ConfirmDeletePlan(writeOk: bool) returns (result: HandlerResult)
      modifies this`leavePlans, this`planToDelete, db`plans
      ensures NothingToDelete(old(planToDelete)) ==>
                result == Ignored && leavePlans == old(leavePlans) && db.plans == old(db.plans)
                && planToDelete == old(planToDelete)
      ensures !NothingToDelete(old(planToDelete)) && !writeOk ==>
                result == Failed && leavePlans == old(leavePlans) && db.plans == old(db.plans)
                && planToDelete == old(planToDelete)
      ensures !NothingToDelete(old(planToDelete)) && writeOk ==>
                var target := TargetId(old(planToDelete).value);
                && result == Done
                && leavePlans == RemovePlansWithId(old(leavePlans), target)
                && (target.Some? && target.value in old(db.plans) ==>
                      db.plans == old(db.plans)[target.value := old(db.plans)[target.value].(isActive := false)])
                && (target.None? || target.value !in old(db.plans) ==> db.plans == old(db.plans))
                && planToDelete.None?
    {
      if NothingToDelete(planToDelete) {
        return Ignored;
      }
      var target := TargetId(planToDelete.value);
      var written := db.SoftDeleteLeavePlan(target, writeOk);
      if !written {
        return Failed;
      }
      leavePlans := RemovePlansWithId(leavePlans, target);
      planToDelete := None;
      result := Done;
    }

    /** cancelDeletePlan. */
    method CancelDeletePlan()
      modifies this`planToDelete
      ensures planToDelete.None?
    {
      planToDelete := None;
    }

    /** handleOpenRecallModal: select the leave and clear the date. */
    method OpenRecallModal(leave: LeaveApplication)
      modifies this`selectedRecallLeave, this`recallNewResumptionDate
      ensures selectedRecallLeave == Some(leave) && recallNewResumptionDate.None?
    {
      selectedRecallLeave := Some(leave);
      recallNewResumptionDate := None;
    }

    /** The recall dialog's date input. */
    method ChooseResumptionDate(date: Option<Day>)
      modifies this`recallNewResumptionDate
      ensures recallNewResumptionDate == date
    {
      recallNewResumptionDate := date;
    }

    /**
     * handleSubmitRecall: refused without a date; otherwise write status
     * "recalled" and reviewed_at only (no reviewer, no recall columns, no
     * refund), notify, and drop that leave from the ongoing list. The history
     * list is not touched. Without a selected leave, `.id` throws; a refused
     * update (`writeOk` is the store's answer) is caught and logged.
     */
    method SubmitRecall(now: Timestamp, writeOk: bool, delivered: bool) returns (result: HandlerResult)
      modifies this`ongoingLeaves, db`applications, db`notifications
      ensures db.balances == old(db.balances) && leaveApplications == old(leaveApplications)
      ensures old(recallNewResumptionDate).None? ==>
                result == Refused && ongoingLeaves == old(ongoingLeaves)
                && db.applications == old(db.applications) && db.notifications == old(db.notifications)
      ensures old(recallNewResumptionDate).Some? && old(selectedRecallLeave).None? ==>
                result == Failed && ongoingLeaves == old(ongoingLeaves)
                && db.applications == old(db.applications) && db.notifications == old(db.notifications)
      ensures old(recallNewResumptionDate).Some? && old(selectedRecallLeave).Some? && !writeOk ==>
                result == Failed && ongoingLeaves == old(ongoingLeaves)
                && db.applications == old(db.applications) && db.notifications == old(db.notifications)
      ensures old(recallNewResumptionDate).Some? && old(selectedRecallLeave).Some? && writeOk ==>
                var leave := old(selectedRecallLeave).value;
                && result == Done
                && db.applications == Patched(old(db.applications), leave.id, StatusPatch(Recalled, now, None, None))
                && db.notifications == Notified(old(db.notifications), leave.employeeId, Some(leave.id),
                                                LeaveRecalled(old(recallNewResumptionDate).value), delivered)
                && ongoingLeaves == RemoveLeaveWithId(old(ongoingLeaves), leave.id)
    {
      if recallNewResumptionDate.None? {
        return Refused;
      }
      if selectedRecallLeave.None? {
        return Failed;
      }
      var leave := selectedRecallLeave.value;
      var written := db.UpdateLeaveStatus(leave.id, StatusPatch(Recalled, now, None, None), writeOk);
      if !written {
        return Failed;
      }
      CreateLeaveNotification(leave.employeeId, Some(leave.id), LeaveRecalled(recallNewResumptionDate.value), delivered);
      ongoingLeaves := RemoveLeaveWithId(ongoingLeaves, leave.id);
      result := Done;
    }
  }

  /** The page's recall changes status only: the row keeps its reviewer and gets no recall columns. */
  lemma PageRecallWritesNoRefundDetails(app: LeaveApplication, now: Timestamp)
    ensures ApplyPatch(app, StatusPatch(Recalled, now, None, None)).recall == app.recall
    ensures ApplyPatch(app, StatusPatch(Recalled, now, None, None)).reviewedBy == app.reviewedBy
    ensures ApplyPatch(app, StatusPatch(Recalled, now, None, None)).status == Recalled
  {
  }
}
