/** The department-change request page: it loads employees and departments
    for two dropdowns and submits a request to move an employee to another
    department. */
module DepartmentChangeRequest {
  import opened Json
  import opened Http
  import opened Normalise

  /** The body of a change request: the employee, the new department (sent
      as `newDept`), the details and the reason. */
  function RequestBody(employeeId: string, newDepartmentId: string, details: string, reason: string): (b: map<string, Json>)
    ensures b.Keys == {"employeeId", "newDept", "details", "reason"}
    ensures b["employeeId"] == JStr(employeeId) && b["newDept"] == JStr(newDepartmentId)
    ensures b["details"] == JStr(details) && b["reason"] == JStr(reason)
  {
    map[
      "employeeId" := JStr(employeeId),
      "newDept" := JStr(newDepartmentId),
      "details" := JStr(details),
      "reason" := JStr(reason)
    ]
  }

  /** The message handling the departments response leaves, if any. */
  function DepartmentsMessage(res: Response): (m: Option<string>)
    requires res.Response?
    ensures m.None? <==> IsOk(res) && res.json.Some? && NormaliseDepartments(res.json.value).Some?
    ensures IsOk(res) && m.Some? ==> m == Some("Failed to parse departments data")
    ensures !IsOk(res) ==> m == Some("Failed to load departments (" + IntToString(res.status) + "): " + res.text)
  {
    if !IsOk(res) then
      Some("Failed to load departments (" + IntToString(res.status) + "): " + res.text)
    else if res.json.None? || NormaliseDepartments(res.json.value).None? then
      Some("Failed to parse departments data")
    else None
  }

  class DepartmentChangePage {
    var newDepartmentId: string
    var departments: seq<map<string, Json>>
    var employeeId: string
    var details: string
    var reason: string
    var message: Option<string>
    var employees: seq<Json>

    constructor ()
      ensures newDepartmentId == "" && employeeId == "" && details == "" && reason == ""
      ensures departments == [] && employees == [] && message == None
    {
      newDepartmentId := "";
      departments := [];
      employeeId := "";
      details := "";
      reason := "";
      message := None;
      employees := [];
    }

    /** The mount effect `fetchEmployees`. The list is unwrapped (array, then
        `data`, then `employees`) and stored as received: the `_id || id`
        copy the effect builds is never stored, and it matters only because
        building it throws on a `null` entry. */
    method FetchEmployees(hasToken: bool, res: Response)
      modifies this`employees, this`message
      ensures !hasToken ==>
                message == Some("No authentication token found. Please log in again.") && employees == old(employees)
      ensures hasToken && res.NetworkError? ==>
                && message == Some("Network error while fetching employees. Check console for details.")
                && employees == old(employees)
      ensures hasToken && res.Response? && !IsOk(res) ==>
                && message == Some("Failed to fetch employees (" + IntToString(res.status) + "): " + res.text)
                && employees == old(employees)
      ensures hasToken && IsOk(res) && (res.json.None? || MapRecords(UnwrapCollection(res.json.value, "employees"), RecordId).None?) ==>
                message == Some("Failed to parse employees data") && employees == old(employees)
      ensures hasToken && IsOk(res) && res.json.Some? && MapRecords(UnwrapCollection(res.json.value, "employees"), RecordId).Some? ==>
                employees == UnwrapCollection(res.json.value, "employees") && message == old(message)
    {
      if !hasToken {
        message := Some("No authentication token found. Please log in again.");
        return;
      }
      if res.NetworkError? {
        message := Some("Network error while fetching employees. Check console for details.");
      } else if !IsOk(res) {
        message := Some("Failed to fetch employees (" + IntToString(res.status) + "): " + res.text);
      } else if res.json.None? {
        message := Some("Failed to parse employees data");
      } else {
        var employeesArray := UnwrapCollection(res.json.value, "employees");
        var normalisedEmployees := MapRecords(employeesArray, RecordId);
        if normalisedEmployees.None? {
          message := Some("Failed to parse employees data");
        } else {
          employees := employeesArray;
        }
      }
    }

    /** The mount effect `fetchData`. The positions response is awaited with
        the departments one, so its rejection aborts the effect, but its
        status and body are never read: whenever it settles, the new state is
        a function of the departments response alone. */
    method FetchData(hasToken: bool, deptRes: Response, posRes: Response)
      modifies this`departments, this`message
      ensures !hasToken ==>
                message == Some("Authentication required. Please log in.") && departments == old(departments)
      ensures hasToken && (deptRes.NetworkError? || posRes.NetworkError?) ==>
                message == Some("Failed to load departments and positions") && departments == old(departments)
      ensures hasToken && deptRes.Response? && posRes.Response? ==>
                && departments == (if DepartmentsMessage(deptRes).None?
                                   then NormaliseDepartments(deptRes.json.value).value
                                   else old(departments))
                && message == (if DepartmentsMessage(deptRes).Some? then DepartmentsMessage(deptRes) else old(message))
    {
      if !hasToken {
        message := Some("Authentication required. Please log in.");
        return;
      }
      if deptRes.NetworkError? || posRes.NetworkError? {
        message := Some("Failed to load departments and positions");
        return;
      }
      if !IsOk(deptRes) {
        message := Some("Failed to load departments (" + IntToString(deptRes.status) + "): " + deptRes.text);
      } else if deptRes.json.None? {
        message := Some("Failed to parse departments data");
      } else {
        var normalised := NormaliseDepartments(deptRes.json.value);
        if normalised.None? {
          message := Some("Failed to parse departments data");
        } else {
          departments := normalised.value;
        }
      }
    }

    /** `handleSubmit`: posts the four fields when a token is present; a
        successful request clears all four, a failed one keeps them. */
    method HandleSubmit(hasToken: bool, res: Response) returns (sent: Option<map<string, Json>>)
      modifies this`newDepartmentId, this`employeeId, this`details, this`reason, this`message
      ensures sent == (if hasToken
                       then Some(RequestBody(old(employeeId), old(newDepartmentId), old(details), old(reason)))
                       else None)
      ensures !hasToken ==> message == Some("No authentication token found. Please log in again.")
      ensures hasToken && IsOk(res) ==>
                && message == Some("Department change request submitted successfully.")
                && newDepartmentId == "" && employeeId == "" && details == "" && reason == ""
      ensures hasToken && res.Response? && !IsOk(res) ==> message == Some("Error: " + res.text)
      ensures hasToken && res.NetworkError? ==> message == Some("Network error while submitting request.")
      ensures !(hasToken && IsOk(res)) ==>
                && newDepartmentId == old(newDepartmentId) && employeeId == old(employeeId)
                && details == old(details) && reason == old(reason)
    {
      message := None;
      if !hasToken {
        message := Some("No authentication token found. Please log in again.");
        return None;
      }
      sent := Some(RequestBody(employeeId, newDepartmentId, details, reason));
      if res.NetworkError? {
        message := Some("Network error while submitting request.");
      } else if IsOk(res) {
        message := Some("Department change request submitted successfully.");
        newDepartmentId := "";
        employeeId := "";
        details := "";
        reason := "";
      } else {
        message := Some("Error: " + res.text);
      }
    }
  }

  /** Departments are taken from a top-level array only: the same records
      wrapped in `{ data: [...] }` or `{ departments: [...] }` are refused,
      while the same envelope would be unwrapped for employees. */
  lemma DepartmentsNeedBareArray(records: seq<Json>, status: int, text: string)
    requires 200 <= status <= 299
    requires records != []
    ensures var wrapped := Response(status, text, Some(Wrap(records, DataWrapper, "departments")));
            && DepartmentsMessage(wrapped).None?
            && NormaliseDepartments(wrapped.json.value).value == []
            && UnwrapCollection(Wrap(records, DataWrapper, "employees"), "employees") == records
  {
    UnwrapWrap(records, DataWrapper, "employees");
  }
}
