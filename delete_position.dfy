/** The delete-position page: it loads the positions into a dropdown, deletes
    the selected one and drops it from the dropdown. */
module DeletePosition {
  import opened Json
  import opened Http
  import opened Normalise

  /** `positions.filter(p => p._id !== id)` */
  function WithoutPosition(ps: seq<PositionOption>, id: string): (r: seq<PositionOption>)
    ensures |r| <= |ps|
    ensures forall p :: p in r ==> p in ps && p.id != JStr(id)
    ensures forall p :: p in ps && p.id != JStr(id) ==> p in r
    decreases |ps|
  {
    if ps == [] then []
    else if ps[0].id == JStr(id) then WithoutPosition(ps[1..], id)
    else [ps[0]] + WithoutPosition(ps[1..], id)
  }

  /** Removal keeps the survivors in their order: filtering a concatenation
      filters each part and concatenates the results. */
  lemma {:induction false} WithoutPositionAppend(a: seq<PositionOption>, b: seq<PositionOption>, id: string)
    ensures WithoutPosition(a + b, id) == WithoutPosition(a, id) + WithoutPosition(b, id)
    decreases |a|
  {
    if a == [] {
      assert a + b == b;
    } else {
      assert (a + b)[0] == a[0] && (a + b)[1..] == a[1..] + b;
      WithoutPositionAppend(a[1..], b, id);
    }
  }

  /** When no position has the id, the list is kept exactly. */
  lemma {:induction false} WithoutAbsentPosition(ps: seq<PositionOption>, id: string)
    requires forall i :: 0 <= i < |ps| ==> ps[i].id != JStr(id)
    ensures WithoutPosition(ps, id) == ps
    decreases |ps|
  {
    if ps != [] {
      WithoutAbsentPosition(ps[1..], id);
    }
  }

  /** Removing the same id twice removes nothing more. */
  lemma {:induction false} WithoutPositionIdempotent(ps: seq<PositionOption>, id: string)
    ensures WithoutPosition(WithoutPosition(ps, id), id) == WithoutPosition(ps, id)
  {
    var r := WithoutPosition(ps, id);
    forall i | 0 <= i < |r| ensures r[i].id != JStr(id) {
      assert r[i] in r;
    }
    WithoutAbsentPosition(r, id);
  }

  class DeletePositionPage {
    var positions: seq<PositionOption>
    var selectedId: string
    var message: string

    constructor ()
      ensures positions == [] && selectedId == "" && message == ""
    {
      positions := [];
      selectedId := "";
      message := "";
    }

    /** The mount effect `fetchPositions`. */
    method FetchPositions(hasToken: bool, res: Response)
      modifies this`positions, this`message
      ensures !hasToken ==> message == "Authentication required. Please log in." && positions == old(positions)
      ensures hasToken && res.NetworkError? ==>
                message == "Network error while fetching positions. Check console for details."
                && positions == old(positions)
      ensures hasToken && res.Response? && !IsOk(res) ==>
                message == "Failed to fetch positions (" + IntToString(res.status) + "): " + res.text
                && positions == old(positions)
      ensures hasToken && IsOk(res) && (res.json.None? || ProjectPositions(res.json.value).None?) ==>
                message == "Failed to parse positions data" && positions == old(positions)
      ensures hasToken && IsOk(res) && res.json.Some? && ProjectPositions(res.json.value).Some? ==>
                positions == ProjectPositions(res.json.value).value && message == old(message)
    {
      if !hasToken {
        message := "Authentication required. Please log in.";
        return;
      }
      if res.NetworkError? {
        message := "Network error while fetching positions. Check console for details.";
      } else if !IsOk(res) {
        message := "Failed to fetch positions (" + IntToString(res.status) + "): " + res.text;
      } else if res.json.None? {
        message := "Failed to parse positions data";
      } else {
        var projected := ProjectPositions(res.json.value);
        if projected.None? {
          message := "Failed to parse positions data";
        } else {
          positions := projected.value;
        }
      }
    }

    /** The dropdown's `onChange`. */
    method SelectPosition(id: string)
      modifies this`selectedId
      ensures selectedId == id
    {
      selectedId := id;
    }

    /** `handleSubmit`: with a position selected and the deletion confirmed,
        sends a delete for `selectedId` (`sent`); a successful delete drops
        every position with that id and clears the selection. */
    method HandleSubmit(confirmed: bool, hasToken: bool, res: Response) returns (sent: Option<string>)
      modifies this`positions, this`selectedId, this`message
      ensures sent == (if old(selectedId) != "" && confirmed && hasToken then Some(old(selectedId)) else None)
      ensures old(selectedId) == "" ==> message == "Please select a position"
      ensures old(selectedId) != "" && !confirmed ==> message == old(message)
      ensures sent.Some? && IsOk(res) ==>
                && message == "Position deleted successfully!"
                && selectedId == ""
                && positions == WithoutPosition(old(positions), old(selectedId))
      ensures sent.Some? && res.Response? && !IsOk(res) ==> message == "Error: " + res.text
      ensures sent.Some? && res.NetworkError? ==> message == "Network error while deleting position"
      ensures old(selectedId) != "" && confirmed && !hasToken ==> message == "Authentication required. Please log in."
      ensures !(sent.Some? && IsOk(res)) ==> positions == old(positions) && selectedId == old(selectedId)
    {
      if selectedId == "" {
        message := "Please select a position";
        return None;
      }
      if !confirmed {
        return None;
      }
      message := "";
      if !hasToken {
        message := "Authentication required. Please log in.";
        return None;
      }
      sent := Some(selectedId);
      if res.NetworkError? {
        message := "Network error while deleting position";
      } else if IsOk(res) {
        message := "Position deleted successfully!";
        var deleted := selectedId;
        selectedId := "";
        positions := WithoutPosition(positions, deleted);
      } else {
        message := "Error: " + res.text;
      }
    }
  }
}
