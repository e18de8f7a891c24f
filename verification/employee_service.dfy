/**
 * The employee service: how a row of the employees table becomes the
 * employee the pages show, which rows the employee list query returns, and
 * the lookups by identity-provider uid. The clock is the `now` parameter.
 */
module EmployeeService {
  import opened Wrappers
  import opened Text
  import opened Seqs

  type EmployeeId = nat
  /** An instant, in milliseconds. */
  type Millis = int

  /** An employee counts as online when seen less than this long ago. */
  const ActiveThresholdMs: int := 30000

  /** An employees row; nullable columns are Options. */
  datatype EmployeeRow = EmployeeRow(
    id: EmployeeId,
    firebaseUid: Option<string>,
    fullName: Option<string>,
    email: Option<string>,
    department: Option<string>,
    position: Option<string>,
    startDate: Option<string>,
    category: Option<string>,
    gender: Option<string>,
    contact: Option<string>,
    address: Option<string>,
    profileImageUrl: Option<string>,
    role: Option<string>,
    canViewPayroll: Option<bool>,
    lastSeen: Option<Millis>)

  datatype OnlineStatus = Active | Inactive

  /** The employee object the pages use. */
  datatype Employee = Employee(
    id: EmployeeId,
    firebaseUid: Option<string>,
    name: string,
    email: string,
    department: string,
    position: string,
    startDate: string,
    category: string,
    gender: string,
    status: OnlineStatus,
    contact: string,
    address: string,
    profileImageUrl: string,
    role: string,
    canViewPayroll: bool)

  /** `out` is the column's text when it is present and non-empty, and the default otherwise. */
  predicate KeptOrDefaulted(column: Option<string>, out: string, default: string) {
    && (column.Some? && column.value != "" ==> out == column.value)
    && (column.None? || column.value == "" ==> out == default)
  }

  /** `column || default`: null and "" are falsy. */
  function OrDefault(column: Option<string>, default: string): (r: string)
    ensures KeptOrDefaulted(column, r, default)
  {
    if column.Some? && column.value != "" then column.value else default
  }

  /** mapRowToEmployee, with Date.now() as `now`. */
  function MapRowToEmployee(row: EmployeeRow, now: Millis): (e: Employee)
    ensures e.id == row.id && e.firebaseUid == row.firebaseUid
    ensures KeptOrDefaulted(row.fullName, e.name, "Unknown")
    ensures KeptOrDefaulted(row.email, e.email, "")
    ensures KeptOrDefaulted(row.department, e.department, "N/A")
    ensures KeptOrDefaulted(row.position, e.position, "N/A")
    ensures KeptOrDefaulted(row.startDate, e.startDate, "N/A")
    ensures KeptOrDefaulted(row.category, e.category, "N/A")
    ensures KeptOrDefaulted(row.gender, e.gender, "N/A")
    ensures KeptOrDefaulted(row.contact, e.contact, "")
    ensures KeptOrDefaulted(row.address, e.address, "")
    ensures KeptOrDefaulted(row.profileImageUrl, e.profileImageUrl, "")
    ensures KeptOrDefaulted(row.role, e.role, "user")
    ensures e.canViewPayroll <==> row.canViewPayroll == Some(true)
    ensures e.status == Active <==> row.lastSeen.Some? && now - row.lastSeen.value < ActiveThresholdMs
  {
    var isRecent := row.lastSeen.Some? && now - row.lastSeen.value < ActiveThresholdMs;
    Employee(
      row.id,
      row.firebaseUid,
      OrDefault(row.fullName, "Unknown"),
      OrDefault(row.email, ""),
      OrDefault(row.department, "N/A"),
      OrDefault(row.position, "N/A"),
      OrDefault(row.startDate, "N/A"),
      OrDefault(row.category, "N/A"),
      OrDefault(row.gender, "N/A"),
      if isRecent then Active else Inactive,
      OrDefault(row.contact, ""),
      OrDefault(row.address, ""),
      OrDefault(row.profileImageUrl, ""),
      OrDefault(row.role, "user"),
      row.canViewPayroll == Some(true))
  }

  /** Once an employee shows as inactive, it stays inactive as the clock advances without a new sighting. */
  lemma InactiveStaysInactive(row: EmployeeRow, now: Millis, later: Millis)
    requires now <= later && MapRowToEmployee(row, now).status == Inactive
    ensures MapRowToEmployee(row, later).status == Inactive
  {
  }

  /** Mapping is the same at every instant except for the status. */
  lemma OnlyStatusDependsOnClock(row: EmployeeRow, now: Millis, other: Millis)
    ensures MapRowToEmployee(row, now).(status := Inactive) == MapRowToEmployee(row, other).(status := Inactive)
  {
  }

  // ---------------------------------------------------------------------------
  // The employee list query

  /**
   * `.neq("role", "admin")`: in SQL a null role compares as unknown, so rows
   * without a role are left out along with the admins.
   */
  predicate NotAdmin(row: EmployeeRow) {
    row.role.Some? && row.role.value != "admin"
  }

  /** `column.ilike.%term%`: the column is present and contains the term, ignoring case. */
  predicate ILikeContains(column: Option<string>, term: string) {
    column.Some? && Contains(ToLower(column.value), ToLower(term))
  }

  /** The search's `or` over full_name, department and position. */
  predicate SearchHit(row: EmployeeRow, term: string) {
    ILikeContains(row.fullName, term) || ILikeContains(row.department, term) || ILikeContains(row.position, term)
  }

  /** A row fetchEmployees returns: not an admin, and matching the trimmed term when there is one. */
  predicate Listed(row: EmployeeRow, searchTerm: string) {
    NotAdmin(row) && (Trim(searchTerm) == "" || SearchHit(row, Trim(searchTerm)))
  }

  function ListedTest(searchTerm: string): EmployeeRow -> bool {
    (row: EmployeeRow) => Listed(row, searchTerm)
  }

  /** Maps every row, keeping the order. */
  function MapRows(rows: seq<EmployeeRow>, now: Millis): (r: seq<Employee>)
    ensures |r| == |rows|
    ensures forall i :: 0 <= i < |rows| ==> r[i] == MapRowToEmployee(rows[i], now)
  {
    if rows == [] then [] else [MapRowToEmployee(rows[0], now)] + MapRows(rows[1..], now)
  }

  /**
   * fetchEmployees: the non-admin rows, narrowed by the search when the
   * trimmed term is not blank, each mapped to an employee.
   */
  function FetchEmployees(rows: seq<EmployeeRow>, searchTerm: string, now: Millis): (r: seq<Employee>)
    ensures forall e :: e in r ==> e.role != "admin"
    ensures forall e :: e in r ==> exists row :: row in rows && Listed(row, searchTerm) && e == MapRowToEmployee(row, now)
    ensures forall row :: row in rows && Listed(row, searchTerm) ==> MapRowToEmployee(row, now) in r
  {
    var listed := Filter(rows, ListedTest(searchTerm));
    var r := MapRows(listed, now);
    forall e | e in r
      ensures e.role != "admin"
      ensures exists row :: row in rows && Listed(row, searchTerm) && e == MapRowToEmployee(row, now)
    {
      var i :| 0 <= i < |r| && r[i] == e;
      assert listed[i] in listed;
      NonAdminMapsToNonAdmin(listed[i], now);
    }
    forall row | row in rows && Listed(row, searchTerm)
      ensures MapRowToEmployee(row, now) in r
    {
      var i :| 0 <= i < |listed| && listed[i] == row;
      assert r[i] == MapRowToEmployee(row, now);
    }
    r
  }

  /** A row that passes the admin filter never maps to an admin, even through the "user" default. */
  lemma NonAdminMapsToNonAdmin(row: EmployeeRow, now: Millis)
    requires NotAdmin(row)
    ensures MapRowToEmployee(row, now).role != "admin"
  {
    assert "user"[0] != "admin"[0];
  }

  /** A blank search term leaves only the admin filter. */
  lemma BlankSearchListsEveryNonAdmin(row: EmployeeRow, searchTerm: string)
    requires AllWhitespace(searchTerm)
    ensures Listed(row, searchTerm) <==> NotAdmin(row)
  {
    TrimBlank(searchTerm);
  }

  // ---------------------------------------------------------------------------
  // Lookups by uid

  /** The columns fetchEmployeeByFirebaseUid selects, as stored. */
  datatype Profile = Profile(
    id: EmployeeId, firebaseUid: Option<string>, role: Option<string>, email: Option<string>,
    fullName: Option<string>, department: Option<string>, position: Option<string>, canViewPayroll: Option<bool>)

  function ProfileOf(row: EmployeeRow): Profile {
    Profile(row.id, row.firebaseUid, row.role, row.email, row.fullName, row.department, row.position, row.canViewPayroll)
  }

  /** The query failed: the error the service rethrows. */
  datatype QueryError = NoRows | MultipleRows

  function UidTest(uid: string): EmployeeRow -> bool {
    (row: EmployeeRow) => row.firebaseUid == Some(uid)
  }

  /**
   * fetchEmployeeByFirebaseUid: `.maybeSingle()` gives null for no row and the
   * row for one; more than one row is an error, which is rethrown.
   */
  function FetchEmployeeByFirebaseUid(rows: seq<EmployeeRow>, uid: string): (r: Result<Option<Profile>, QueryError>)
    ensures r == Success(None) <==> forall row :: row in rows ==> row.firebaseUid != Some(uid)
    ensures r.Success? && r.value.Some? ==>
              exists row :: row in rows && row.firebaseUid == Some(uid) && r.value.value == ProfileOf(row)
    ensures r.Failure? ==> r.error == MultipleRows
    ensures |Filter(rows, UidTest(uid))| == 1 ==> r == Success(Some(ProfileOf(Filter(rows, UidTest(uid))[0])))
    ensures |Filter(rows, UidTest(uid))| >= 2 ==> r == Failure(MultipleRows)
  {
    var matches := Filter(rows, UidTest(uid));
    if |matches| == 0 then Success(None)
    else if |matches| == 1 then
      assert matches[0] in matches;
      Success(Some(ProfileOf(matches[0])))
    else
      assert matches[0] in matches;
      Failure(MultipleRows)
  }

  /** Two rows sharing the uid make both lookups fail rather than pick one. */
  lemma SharedUidFails(rows: seq<EmployeeRow>, i: nat, j: nat)
    requires i < j < |rows| && rows[i].firebaseUid.Some? && rows[j].firebaseUid == rows[i].firebaseUid
    ensures FetchEmployeeByFirebaseUid(rows, rows[i].firebaseUid.value) == Failure(MultipleRows)
    ensures FetchEmployeeIdByFirebaseUid(rows, rows[i].firebaseUid.value) == Failure(MultipleRows)
  {
    FilterTwoHits(rows, UidTest(rows[i].firebaseUid.value), i, j);
  }

  /** A uid carried by exactly one row finds that row's profile and id. */
  lemma UniqueUidFindsItsRow(rows: seq<EmployeeRow>, i: nat)
    requires i < |rows| && rows[i].firebaseUid.Some?
    requires forall j :: 0 <= j < |rows| && j != i ==> rows[j].firebaseUid != rows[i].firebaseUid
    ensures FetchEmployeeByFirebaseUid(rows, rows[i].firebaseUid.value) == Success(Some(ProfileOf(rows[i])))
    ensures FetchEmployeeIdByFirebaseUid(rows, rows[i].firebaseUid.value) == Success(rows[i].id)
  {
    FilterOneHit(rows, UidTest(rows[i].firebaseUid.value), i);
  }

  /**
   * fetchEmployeeIdByFirebaseUid: `.single()` demands exactly one row; no row
   * and several rows are both errors, which are rethrown.
   */
  function FetchEmployeeIdByFirebaseUid(rows: seq<EmployeeRow>, uid: string): (r: Result<EmployeeId, QueryError>)
    ensures r == Failure(NoRows) <==> forall row :: row in rows ==> row.firebaseUid != Some(uid)
    ensures r.Success? ==> exists row :: row in rows && row.firebaseUid == Some(uid) && r.value == row.id
    ensures |Filter(rows, UidTest(uid))| == 1 ==> r == Success(Filter(rows, UidTest(uid))[0].id)
    ensures |Filter(rows, UidTest(uid))| >= 2 ==> r == Failure(MultipleRows)
  {
    var matches := Filter(rows, UidTest(uid));
    if |matches| == 0 then Failure(NoRows)
    else if |matches| == 1 then
      assert matches[0] in matches;
      Success(matches[0].id)
    else
      assert matches[0] in matches;
      Failure(MultipleRows)
  }

  /** The two lookups agree whenever exactly one row has the uid. */
  lemma LookupsAgreeOnUniqueUid(rows: seq<EmployeeRow>, uid: string)
    requires FetchEmployeeIdByFirebaseUid(rows, uid).Success?
    ensures FetchEmployeeByFirebaseUid(rows, uid).Success?
    ensures FetchEmployeeByFirebaseUid(rows, uid).value.Some?
    ensures FetchEmployeeByFirebaseUid(rows, uid).value.value.id == FetchEmployeeIdByFirebaseUid(rows, uid).value
  {
  }
}
