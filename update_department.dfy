/** The update-department page: it loads departments and positions, loads the
    selected department into a form, saves the edited form and merges it into
    its local list. */
module UpdateDepartment {
  import opened Json
  import opened Http
  import opened Normalise
  import opened Forms

  datatype NoticeKind = Success | Failure

  /** The page's `message` state: a kind, which picks the colour, and a text. */
  datatype Notice = Notice(kind: NoticeKind, text: string)

  /** The request a save sends: the department's id and the body. */
  datatype Update = Update(id: string, payload: map<string, Json>)

  /** `xs.find(matches)`, as the index of the first element that matches. */
  function FindFirst<T>(xs: seq<T>, matches: T -> bool): (r: Option<nat>)
    ensures r.Some? ==> r.value < |xs| && matches(xs[r.value])
    ensures r.Some? ==> forall j :: 0 <= j < r.value ==> !matches(xs[j])
    ensures r.None? ==> forall j :: 0 <= j < |xs| ==> !matches(xs[j])
    decreases |xs|
  {
    if xs == [] then None
    else if matches(xs[0]) then Some(0)
    else
      match FindFirst(xs[1..], matches)
      case None => None
      case Some(k) => Some(k + 1)
  }

  /** `departments.find(dept => dept._id === id)` */
  function FindDepartment(ds: seq<map<string, Json>>, id: string): (r: Option<nat>)
    ensures r.Some? ==> r.value < |ds| && Field(ds[r.value], "_id") == JStr(id)
    ensures r.Some? ==> forall j :: 0 <= j < r.value ==> Field(ds[j], "_id") != JStr(id)
    ensures r.None? ==> forall j :: 0 <= j < |ds| ==> Field(ds[j], "_id") != JStr(id)
  {
    FindFirst(ds, d => Field(d, "_id") == JStr(id))
  }

  /** The form that selecting a department fills in: its code, name and
      active flag as stored, its description and head position defaulting
      to the empty string. */
  function LoadedForm(d: map<string, Json>): (f: map<string, Json>)
    ensures f.Keys == {"code", "name", "description", "headPositionId", "isActive"}
    ensures f["code"] == Field(d, "code") && f["name"] == Field(d, "name")
    ensures f["isActive"] == Field(d, "isActive")
    ensures Truthy(Field(d, "description")) ==> f["description"] == Field(d, "description")
    ensures !Truthy(Field(d, "description")) ==> f["description"] == JStr("")
    ensures Truthy(Field(d, "headPositionId")) ==> f["headPositionId"] == Field(d, "headPositionId")
    ensures !Truthy(Field(d, "headPositionId")) ==> f["headPositionId"] == JStr("")
  {
    map[
      "code" := Field(d, "code"),
      "name" := Field(d, "name"),
      "description" := Or(Field(d, "description"), JStr("")),
      "headPositionId" := Or(Field(d, "headPositionId"), JStr("")),
      "isActive" := Field(d, "isActive")
    ]
  }

  /** The update body built from the form: five fields, an empty description
      sent as `""`, an empty head position left `undefined`, and an active
      flag that defaults to `true` only when unset (`false` is kept). */
  function UpdatePayload(form: map<string, Json>): (p: map<string, Json>)
    ensures p.Keys == {"code", "name", "description", "headPositionId", "isActive"}
    ensures p["code"] == Field(form, "code") && p["name"] == Field(form, "name")
    ensures Truthy(Field(form, "description")) ==> p["description"] == Field(form, "description")
    ensures !Truthy(Field(form, "description")) ==> p["description"] == JStr("")
    ensures Truthy(Field(form, "headPositionId")) ==> p["headPositionId"] == Field(form, "headPositionId")
    ensures !Truthy(Field(form, "headPositionId")) ==> p["headPositionId"] == JUndefined
    ensures Nullish(Field(form, "isActive")) ==> p["isActive"] == JBool(true)
    ensures !Nullish(Field(form, "isActive")) ==> p["isActive"] == Field(form, "isActive")
  {
    map[
      "code" := Field(form, "code"),
      "name" := Field(form, "name"),
      "description" := Or(Field(form, "description"), JStr("")),
      "headPositionId" := Or(Field(form, "headPositionId"), JUndefined),
      "isActive" := Coalesce(Field(form, "isActive"), JBool(true))
    ]
  }

  /** The local merge after a successful save: every department whose `_id`
      is the selected id takes the form's fields over its own, the others
      stay as they were, and the list keeps its length and order. */
  function MergeSelected(ds: seq<map<string, Json>>, id: string, form: map<string, Json>): (r: seq<map<string, Json>>)
    ensures |r| == |ds|
    ensures forall i :: 0 <= i < |ds| && Field(ds[i], "_id") != JStr(id) ==> r[i] == ds[i]
    ensures forall i :: 0 <= i < |ds| && Field(ds[i], "_id") == JStr(id) ==>
              && r[i].Keys == ds[i].Keys + form.Keys
              && (forall k :: k in form ==> r[i][k] == form[k])
              && (forall k :: k in ds[i] && k !in form ==> r[i][k] == ds[i][k])
  {
    seq(|ds|, i requires 0 <= i < |ds| => if Field(ds[i], "_id") == JStr(id) then ds[i] + form else ds[i])
  }

  /** Saving under an id no department has leaves the list exactly as it was. */
  lemma MergeAbsentId(ds: seq<map<string, Json>>, id: string, form: map<string, Json>)
    requires FindDepartment(ds, id).None?
    ensures MergeSelected(ds, id, form) == ds
  {
  }

  /** After a save is merged, selecting the same department again finds it
      at the same place and loads the code and name that were saved. The
      page's inputs never name `_id`, so the form cannot change which
      department matches. */
  lemma ReselectAfterMerge(ds: seq<map<string, Json>>, id: string, form: map<string, Json>)
    requires FindDepartment(ds, id).Some?
    requires "code" in form && "name" in form && "_id" !in form
    ensures var merged := MergeSelected(ds, id, form);
            var k := FindDepartment(merged, id);
            && k == FindDepartment(ds, id)
            && LoadedForm(merged[k.value])["code"] == form["code"]
            && LoadedForm(merged[k.value])["name"] == form["name"]
  {
  }

  /** `getPositionTitle`: an object id is unwrapped to its `_id`; the title of
      the first position with that id, or "Unknown" when there is none or its
      title is falsy. */
  function PositionTitle(positions: seq<Json>, posId: Json): (t: Json)
    ensures Truthy(t)
    ensures (forall i :: 0 <= i < |positions| ==> !StrictEq(Prop(positions[i], "_id"), UnwrapForeignKey(posId)))
            ==> t == JStr("Unknown")
    ensures t != JStr("Unknown") ==>
              exists i :: 0 <= i < |positions|
                          && StrictEq(Prop(positions[i], "_id"), UnwrapForeignKey(posId))
                          && Prop(positions[i], "title") == t
    ensures forall i :: 0 <= i < |positions|
                        && StrictEq(Prop(positions[i], "_id"), UnwrapForeignKey(posId))
                        && (forall j :: 0 <= j < i ==> !StrictEq(Prop(positions[j], "_id"), UnwrapForeignKey(posId)))
                        ==> t == (if Truthy(Prop(positions[i], "title")) then Prop(positions[i], "title") else JStr("Unknown"))
  {
    var id := UnwrapForeignKey(posId);
    match FindFirst(positions, p => StrictEq(Prop(p, "_id"), id))
    case None => JStr("Unknown")
    case Some(k) => Or(Prop(positions[k], "title"), JStr("Unknown"))
  }

  /** The notice the departments half of the mount effect leaves, if any. */
  function DepartmentsNotice(res: Response): (n: Option<Notice>)
    requires res.Response?
    ensures n.None? <==> IsOk(res) && res.json.Some? && NormaliseDepartments(res.json.value).Some?
    ensures n.Some? ==> n.value.kind == Failure
    ensures IsOk(res) && n.Some? ==> n.value.text == "Failed to parse departments data"
    ensures !IsOk(res) ==> n.Some? && n.value.text == "Failed to load departments (" + IntToString(res.status) + "): " + res.text
  {
    if !IsOk(res) then
      Some(Notice(Failure, "Failed to load departments (" + IntToString(res.status) + "): " + res.text))
    else if res.json.None? || NormaliseDepartments(res.json.value).None? then
      Some(Notice(Failure, "Failed to parse departments data"))
    else None
  }

  /** The notice the positions half of the mount effect leaves, if any. */
  function PositionsNotice(res: Response): (n: Option<Notice>)
    requires res.Response?
    ensures n.None? <==> IsOk(res) && res.json.Some?
    ensures n.Some? ==> n.value.kind == Failure
    ensures IsOk(res) && n.Some? ==> n.value.text == "Failed to parse positions data"
    ensures !IsOk(res) ==> n.Some? && n.value.text == "Failed to load positions (" + IntToString(res.status) + "): " + res.text
  {
    if !IsOk(res) then
      Some(Notice(Failure, "Failed to load positions (" + IntToString(res.status) + "): " + res.text))
    else if res.json.None? then
      Some(Notice(Failure, "Failed to parse positions data"))
    else None
  }

  /** `Array.isArray(body) ? body : []` */
  function ArrayOrEmpty(body: Json): (r: seq<Json>)
    ensures body.JArr? ==> r == body.items
    ensures !body.JArr? ==> r == []
  {
    if body.JArr? then body.items else []
  }

  class UpdateDepartmentPage {
    var departments: seq<map<string, Json>>
    var positions: seq<Json>
    var selectedId: string
    var formData: map<string, Json>
    var message: Option<Notice>

    constructor ()
      ensures departments == [] && positions == [] && selectedId == ""
      ensures formData == map[] && message == None
    {
      departments := [];
      positions := [];
      selectedId := "";
      formData := map[];
      message := None;
    }

    /** The mount effect. Departments are accepted only as a top-level array,
        normalised; positions likewise, unnormalised. The positions half runs
        after the departments half, so its notice replaces theirs. */
    method FetchData(hasToken: bool, deptRes: Response, posRes: Response)
      modifies this`departments, this`positions, this`message
      ensures !hasToken ==>
                && message == Some(Notice(Failure, "Authentication required. Please log in."))
                && departments == old(departments) && positions == old(positions)
      ensures hasToken && (deptRes.NetworkError? || posRes.NetworkError?) ==>
                && message == Some(Notice(Failure, "Failed to load departments and positions"))
                && departments == old(departments) && positions == old(positions)
      ensures hasToken && deptRes.Response? && posRes.Response? ==>
                && departments == (if DepartmentsNotice(deptRes).None?
                                   then NormaliseDepartments(deptRes.json.value).value
                                   else old(departments))
                && positions == (if PositionsNotice(posRes).None?
                                 then ArrayOrEmpty(posRes.json.value)
                                 else old(positions))
                && message == (if PositionsNotice(posRes).Some? then PositionsNotice(posRes)
                               else if DepartmentsNotice(deptRes).Some? then DepartmentsNotice(deptRes)
                               else old(message))
    {
      if !hasToken {
        message := Some(Notice(Failure, "Authentication required. Please log in."));
        return;
      }
      if deptRes.NetworkError? || posRes.NetworkError? {
        message := Some(Notice(Failure, "Failed to load departments and positions"));
        return;
      }
      if !IsOk(deptRes) {
        message := Some(Notice(Failure, "Failed to load departments (" + IntToString(deptRes.status) + "): " + deptRes.text));
      } else if deptRes.json.None? {
        message := Some(Notice(Failure, "Failed to parse departments data"));
      } else {
        var normalised := NormaliseDepartments(deptRes.json.value);
        if normalised.None? {
          message := Some(Notice(Failure, "Failed to parse departments data"));
        } else {
          departments := normalised.value;
        }
      }
      if !IsOk(posRes) {
        message := Some(Notice(Failure, "Failed to load positions (" + IntToString(posRes.status) + "): " + posRes.text));
      } else if posRes.json.None? {
        message := Some(Notice(Failure, "Failed to parse positions data"));
      } else {
        positions := ArrayOrEmpty(posRes.json.value);
      }
    }

    /** `handleSelectDepartment`: an empty id clears the form; the first
        department with the id is loaded into the form and the notice is
        cleared; an id no department has leaves form and notice alone. */
    method SelectDepartment(deptId: string)
      modifies this`selectedId, this`formData, this`message
      ensures selectedId == deptId
      ensures deptId == "" ==> formData == map[] && message == old(message)
      ensures deptId != "" && FindDepartment(departments, deptId).None? ==>
                formData == old(formData) && message == old(message)
      ensures deptId != "" && FindDepartment(departments, deptId).Some? ==>
                formData == LoadedForm(departments[FindDepartment(departments, deptId).value]) && message == None
    {
      selectedId := deptId;
      if deptId != "" {
        var found := FindDepartment(departments, deptId);
        if found.Some? {
          formData := LoadedForm(departments[found.value]);
          message := None;
        }
      } else {
        formData := map[];
      }
    }

    /** `handleInputChange`: only the field named by the input changes. */
    method HandleInputChange(e: InputEvent)
      modifies this`formData
      ensures formData == WithInput(old(formData), e)
    {
      formData := WithInput(formData, e);
    }

    /** `handleSave`: nothing is sent unless a department is selected and the
        form has a name and a code; a successful update is merged into the
        local list. */
    method HandleSave(hasToken: bool, res: Response) returns (sent: Option<Update>)
      modifies this`departments, this`message
      ensures var valid := selectedId != "" && Truthy(Field(formData, "name")) && Truthy(Field(formData, "code"));
              && (!valid ==> message == Some(Notice(Failure, "Please fill in all required fields")))
              && (valid && !hasToken ==> message == Some(Notice(Failure, "Authentication required. Please log in.")))
              && sent == (if valid && hasToken then Some(Update(selectedId, UpdatePayload(formData))) else None)
      ensures sent.Some? && IsOk(res) ==>
                && message == Some(Notice(Success, "Department updated successfully!"))
                && departments == MergeSelected(old(departments), selectedId, formData)
      ensures sent.Some? && (res.NetworkError? || (!IsOk(res) && (res.json.None? || Nullish(res.json.value)))) ==>
                message == Some(Notice(Failure, "Error updating department"))
      ensures sent.Some? && res.Response? && !IsOk(res) && res.json.Some? && !Nullish(res.json.value) ==>
                message == Some(Notice(Failure, "Failed to update department: " + Display(Prop(res.json.value, "message"))))
      ensures !(sent.Some? && IsOk(res)) ==> departments == old(departments)
    {
      if selectedId == "" || !Truthy(Field(formData, "name")) || !Truthy(Field(formData, "code")) {
        message := Some(Notice(Failure, "Please fill in all required fields"));
        return None;
      }
      var payload := UpdatePayload(formData);
      if !hasToken {
        message := Some(Notice(Failure, "Authentication required. Please log in."));
        return None;
      }
      sent := Some(Update(selectedId, payload));
      if res.NetworkError? {
        message := Some(Notice(Failure, "Error updating department"));
      } else if IsOk(res) {
        message := Some(Notice(Success, "Department updated successfully!"));
        departments := MergeSelected(departments, selectedId, formData);
      } else if res.json.None? || Nullish(res.json.value) {
        message := Some(Notice(Failure, "Error updating department"));
      } else {
        message := Some(Notice(Failure, "Failed to update department: " + Display(Prop(res.json.value, "message"))));
      }
    }
  }
}
