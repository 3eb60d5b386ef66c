/** The create-position page: it loads departments and positions for its two
    dropdowns, edits a position form and posts it. */
module CreatePosition {
  import opened Json
  import opened Http
  import opened Normalise
  import opened Forms

  /** The form of a fresh page, and again after a successful create. */
  function InitialForm(): (f: map<string, Json>)
    ensures f.Keys == {"code", "title", "description", "departmentId", "reportsToPositionId", "isActive"}
    ensures forall k :: k in f && k != "isActive" ==> f[k] == JStr("")
    ensures f["isActive"] == JBool(true)
  {
    map[
      "code" := JStr(""),
      "title" := JStr(""),
      "description" := JStr(""),
      "departmentId" := JStr(""),
      "reportsToPositionId" := JStr(""),
      "isActive" := JBool(true)
    ]
  }

  /** What handling one collection response inside `fetchData` comes to: a
      non-ok response is passed over, a body that cannot be decoded or holds
      a `null` entry throws, and otherwise the projected list is loaded. */
  datatype Stage<T> = Skipped | Threw | Loaded(list: seq<T>)

  /** The records a decoded body carries once its envelope is unwrapped. */
  function BodyRecords(res: Response, key: string): seq<Json>
    requires res.Response?
  {
    if res.json.Some? then UnwrapCollection(res.json.value, key) else []
  }

  function CollectionStage<T>(res: Response, key: string, project: Json -> T): (s: Stage<T>)
    requires res.Response?
    ensures s.Skipped? <==> !IsOk(res)
    ensures s.Loaded? <==> IsOk(res) && res.json.Some?
                           && forall i :: 0 <= i < |BodyRecords(res, key)| ==> !Nullish(BodyRecords(res, key)[i])
    ensures s.Loaded? ==> |s.list| == |BodyRecords(res, key)|
    ensures s.Loaded? ==> forall i :: 0 <= i < |s.list| ==> s.list[i] == project(BodyRecords(res, key)[i])
  {
    if !IsOk(res) then Skipped
    else
      match res.json
      case None => Threw
      case Some(body) =>
        var mapped := MapRecords(BodyRecords(res, key), project);
        match mapped
        case None => Threw
        case Some(list) => Loaded(list)
  }

  class CreatePositionPage {
    var formData: map<string, Json>
    var departments: seq<DepartmentOption>
    var positions: seq<PositionOption>
    var message: string

    constructor ()
      ensures formData == InitialForm() && departments == [] && positions == [] && message == ""
    {
      formData := InitialForm();
      departments := [];
      positions := [];
      message := "";
    }

    /** The mount effect. Both responses are awaited together, so one rejected
        request leaves both lists as they were. The departments response is
        handled first; whether it is ok does not matter to the positions, but
        a throw while handling it skips the positions as well. */
    method FetchData(hasToken: bool, deptRes: Response, posRes: Response)
      modifies this`departments, this`positions
      ensures !hasToken || deptRes.NetworkError? || posRes.NetworkError? ==>
                departments == old(departments) && positions == old(positions)
      ensures hasToken && deptRes.Response? && posRes.Response? ==>
                var d := CollectionStage(deptRes, "departments", ProjectDepartment);
                var p := CollectionStage(posRes, "positions", ProjectPosition);
                && departments == (if d.Loaded? then d.list else old(departments))
                && positions == (if !d.Threw? && p.Loaded? then p.list else old(positions))
    {
      if !hasToken || deptRes.NetworkError? || posRes.NetworkError? {
        return;
      }
      var d := CollectionStage(deptRes, "departments", ProjectDepartment);
      if d.Threw? {
        return;
      }
      if d.Loaded? {
        departments := d.list;
      }
      var p := CollectionStage(posRes, "positions", ProjectPosition);
      if p.Loaded? {
        positions := p.list;
      }
    }

    /** `handleChange`: only the field named by the input changes. */
    method HandleChange(e: InputEvent)
      modifies this`formData
      ensures formData == WithInput(old(formData), e)
    {
      formData := WithInput(formData, e);
    }

    /** `handleSubmit`: posts the form as it stands (`sent`) when a token is
        present; a created position resets the form, any failure keeps it. */
    method HandleSubmit(hasToken: bool, res: Response) returns (sent: Option<map<string, Json>>)
      modifies this`formData, this`message
      ensures sent == (if hasToken then Some(old(formData)) else None)
      ensures !hasToken ==> message == "Authentication required. Please log in."
      ensures hasToken && IsOk(res) ==> message == "Position created successfully!" && formData == InitialForm()
      ensures hasToken && res.Response? && !IsOk(res) ==> message == "Error: " + res.text
      ensures hasToken && res.NetworkError? ==> message == "Network error while creating position"
      ensures !(hasToken && IsOk(res)) ==> formData == old(formData)
    {
      message := "";
      if !hasToken {
        message := "Authentication required. Please log in.";
        return None;
      }
      sent := Some(formData);
      if res.NetworkError? {
        message := "Network error while creating position";
      } else if IsOk(res) {
        message := "Position created successfully!";
        formData := InitialForm();
      } else {
        message := "Error: " + res.text;
      }
    }
  }

  /** The two lists are handled independently of each other's status: a
      non-ok positions response does not keep the departments from loading,
      and a non-ok departments response does not keep the positions from
      loading. */
  lemma StatusFailureIsIsolated(deptRes: Response, posRes: Response)
    requires deptRes.Response? && posRes.Response?
    ensures !IsOk(deptRes) ==> !CollectionStage(deptRes, "departments", ProjectDepartment).Threw?
    ensures !IsOk(posRes) ==> CollectionStage(posRes, "positions", ProjectPosition).Skipped?
  {
  }

  /** A departments body that cannot be decoded throws, which keeps an ok
      positions response from being loaded. */
  lemma UndecodableDepartmentsBlockPositions(status: int, text: string)
    requires 200 <= status <= 299
    ensures CollectionStage(Response(status, text, None), "departments", ProjectDepartment).Threw?
  {
  }
}
