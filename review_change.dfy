/** The review page for change requests: it loads the requests, keeps one
    pending status choice per request and posts a review for one request at
    a time. */
module ReviewChange {
  import opened Json
  import opened Http

  /** The statuses the page offers in every row's dropdown. The same seven
      are offered whatever a request's current status is: the page imposes
      no transition rule. */
  const StatusOptions: seq<string> :=
    ["DRAFT", "SUBMITTED", "UNDER_REVIEW", "APPROVED", "REJECTED", "CANCELED", "IMPLEMENTED"]

  /** `dict[req._id]`: the key that a request's `_id` becomes. */
  function RequestKey(req: Json): string {
    Display(Prop(req, "_id"))
  }

  /** The status dictionary built by assigning `dict[req._id] = req.status`
      for each request in list order; it has at most one entry per request. */
  function StatusMap(reqs: seq<Json>): (m: map<string, Json>)
    ensures |m| <= |reqs|
    decreases |reqs|
  {
    if reqs == [] then map[]
    else
      var last := reqs[|reqs| - 1];
      StatusMap(reqs[..|reqs| - 1])[RequestKey(last) := Prop(last, "status")]
  }

  /** Every loaded request has an entry, and there is no other entry. */
  lemma {:induction false} StatusMapKeys(reqs: seq<Json>, k: string)
    ensures k in StatusMap(reqs) <==> exists i :: 0 <= i < |reqs| && RequestKey(reqs[i]) == k
    decreases |reqs|
  {
    if reqs != [] {
      var n := |reqs|;
      var prefix := reqs[..n - 1];
      StatusMapKeys(prefix, k);
      if k in StatusMap(reqs) && k != RequestKey(reqs[n - 1]) {
        var i :| 0 <= i < |prefix| && RequestKey(prefix[i]) == k;
        assert reqs[i] == prefix[i];
      }
      if exists i :: 0 <= i < n && RequestKey(reqs[i]) == k {
        var i :| 0 <= i < n && RequestKey(reqs[i]) == k;
        if i < n - 1 {
          assert prefix[i] == reqs[i];
        }
      }
    }
  }

  /** A request whose key no later request repeats has its own status in
      the dictionary: for duplicate ids the last request wins. */
  lemma {:induction false} StatusMapLastWins(reqs: seq<Json>, i: nat)
    requires i < |reqs|
    requires forall j :: i < j < |reqs| ==> RequestKey(reqs[j]) != RequestKey(reqs[i])
    ensures RequestKey(reqs[i]) in StatusMap(reqs)
    ensures StatusMap(reqs)[RequestKey(reqs[i])] == Prop(reqs[i], "status")
    decreases |reqs|
  {
    var n := |reqs|;
    if i < n - 1 {
      var prefix := reqs[..n - 1];
      assert prefix[i] == reqs[i];
      forall j | i < j < |prefix| ensures RequestKey(prefix[j]) != RequestKey(prefix[i]) {
        assert prefix[j] == reqs[j];
      }
      StatusMapLastWins(prefix, i);
    }
  }

  /** `statusSelection[req._id] || req.status`: the status a row's dropdown shows. */
  function ShownStatus(selection: map<string, Json>, req: Json): (r: Json)
    ensures r == Field(selection, RequestKey(req)) || r == Prop(req, "status")
    ensures Truthy(r) <==> Truthy(Field(selection, RequestKey(req))) || Truthy(Prop(req, "status"))
    ensures Truthy(Field(selection, RequestKey(req))) ==> r == Field(selection, RequestKey(req))
  {
    Or(Field(selection, RequestKey(req)), Prop(req, "status"))
  }

  /** Right after a load, a row whose id is not repeated further down shows
      its own status. */
  lemma ShownStatusAfterLoad(reqs: seq<Json>, i: nat)
    requires i < |reqs|
    requires forall j :: i < j < |reqs| ==> RequestKey(reqs[j]) != RequestKey(reqs[i])
    ensures ShownStatus(StatusMap(reqs), reqs[i]) == Prop(reqs[i], "status")
  {
    StatusMapLastWins(reqs, i);
  }

  /** `{ ...req, status }` for every request whose `_id` is `=== id`; the other
      requests, and every other field of the matching ones, stay as they
      were, and the list keeps its length and order. */
  function SetStatus(reqs: seq<Json>, id: Json, status: Json): (r: seq<Json>)
    ensures |r| == |reqs|
    ensures forall i :: 0 <= i < |reqs| && !StrictEq(Prop(reqs[i], "_id"), id) ==> r[i] == reqs[i]
    ensures forall i :: 0 <= i < |reqs| && StrictEq(Prop(reqs[i], "_id"), id) ==>
              && r[i].JObj?
              && Prop(r[i], "status") == status
              && (forall k :: k != "status" ==> Prop(r[i], k) == Prop(reqs[i], k))
  {
    seq(|reqs|, i requires 0 <= i < |reqs| =>
      if StrictEq(Prop(reqs[i], "_id"), id) then JObj(Spread(reqs[i])["status" := status]) else reqs[i])
  }

  /** A review in flight: the request's `_id`, as the row holds it, and the
      status it sets. */
  datatype Review = Review(id: Json, status: Json)

  class ReviewChangePage {
    var requests: seq<Json>
    var statusSelection: map<string, Json>
    var savingId: Option<Json>
    var message: string

    constructor ()
      ensures requests == [] && statusSelection == map[] && savingId == None && message == ""
    {
      requests := [];
      statusSelection := map[];
      savingId := None;
      message := "";
    }

    /** `loadRequests`: the body is stored as the request list, then each
        request's status is entered under its id, in order; a `null` entry
        throws, which leaves the dictionary as it was. */
    method LoadRequests(hasToken: bool, res: Response)
      modifies this`requests, this`statusSelection, this`message
      ensures !hasToken ==>
                && message == "No authentication token found. Please log in again."
                && requests == old(requests) && statusSelection == old(statusSelection)
      ensures hasToken && res.NetworkError? ==>
                && message == "Network error while loading requests."
                && requests == old(requests) && statusSelection == old(statusSelection)
      ensures hasToken && res.Response? && !IsOk(res) ==>
                && message == "Error loading requests: " + res.text
                && requests == old(requests) && statusSelection == old(statusSelection)
      ensures hasToken && IsOk(res) && (res.json.None? || !res.json.value.JArr?) ==>
                && message == "Network error while loading requests."
                && requests == old(requests) && statusSelection == old(statusSelection)
      ensures hasToken && IsOk(res) && res.json.Some? && res.json.value.JArr? ==>
                var items := res.json.value.items;
                && requests == items
                && ((forall i :: 0 <= i < |items| ==> !Nullish(items[i])) ==>
                      statusSelection == StatusMap(items) && message == "")
                && (!(forall i :: 0 <= i < |items| ==> !Nullish(items[i])) ==>
                      statusSelection == old(statusSelection) && message == "Network error while loading requests.")
    {
      message := "";
      if !hasToken {
        message := "No authentication token found. Please log in again.";
        return;
      }
      if res.NetworkError? {
        message := "Network error while loading requests.";
        return;
      }
      if !IsOk(res) {
        message := "Error loading requests: " + res.text;
        return;
      }
      if res.json.None? || !res.json.value.JArr? {
        message := "Network error while loading requests.";
        return;
      }
      var items := res.json.value.items;
      requests := items;
      var initialStatus: map<string, Json> := map[];
      var i := 0;
      while i < |items|
        invariant 0 <= i <= |items|
        invariant forall j :: 0 <= j < i ==> !Nullish(items[j])
        invariant initialStatus == StatusMap(items[..i])
      {
        if Nullish(items[i]) {
          message := "Network error while loading requests.";
          return;
        }
        assert items[..i + 1][..i] == items[..i];
        initialStatus := initialStatus[RequestKey(items[i]) := Prop(items[i], "status")];
        i := i + 1;
      }
      assert items[..i] == items;
      statusSelection := initialStatus;
    }

    /** `handleStatusChange`: any status is recorded under the row's key
        `String(id)`, whatever was there before; no other entry changes. The
        dropdown offers only `StatusOptions`, but the handler itself accepts
        any string, so the contract does not restrict `status`. */
    method HandleStatusChange(id: Json, status: string)
      modifies this`statusSelection
      ensures statusSelection == old(statusSelection)[Display(id) := JStr(status)]
    {
      statusSelection := statusSelection[Display(id) := JStr(status)];
    }

    /** The part of `handleReview` before the request is awaited. Without a
        truthy choice for `id` nothing is sent and `savingId` is untouched;
        otherwise `savingId` becomes `id` and stays so while the returned
        review is in flight, unless there is no token to send it with. */
    method BeginReview(id: Json, hasToken: bool) returns (review: Option<Review>)
      modifies this`savingId, this`message
      ensures var selected := Field(statusSelection, Display(id));
              && (!Truthy(selected) ==>
                    && message == "Please select a status before submitting."
                    && savingId == old(savingId) && review == None)
              && (Truthy(selected) && !hasToken ==>
                    && message == "No authentication token found. Please log in again."
                    && savingId == None && review == None)
              && (Truthy(selected) && hasToken ==>
                    message == "" && savingId == Some(id) && review == Some(Review(id, selected)))
    {
      var selected := Field(statusSelection, Display(id));
      if !Truthy(selected) {
        message := "Please select a status before submitting.";
        return None;
      }
      savingId := Some(id);
      message := "";
      if !hasToken {
        message := "No authentication token found. Please log in again.";
        savingId := None;
        return None;
      }
      review := Some(Review(id, selected));
    }

    /** The part of `handleReview` after the request settles: on success only
        the requests with the reviewed id take the new status; `savingId`
        returns to null on every path. */
    method FinishReview(review: Review, res: Response)
      modifies this`requests, this`savingId, this`message
      ensures savingId == None
      ensures IsOk(res) ==>
                && message == "Request " + Display(review.id) + " updated to " + Display(review.status) + "."
                && requests == SetStatus(old(requests), review.id, review.status)
      ensures res.Response? && !IsOk(res) ==> message == "Error updating request: " + res.text
      ensures res.NetworkError? ==> message == "Network error while submitting review."
      ensures !IsOk(res) ==> requests == old(requests)
    {
      if res.NetworkError? {
        message := "Network error while submitting review.";
      } else if IsOk(res) {
        message := "Request " + Display(review.id) + " updated to " + Display(review.status) + ".";
        requests := SetStatus(requests, review.id, review.status);
      } else {
        message := "Error updating request: " + res.text;
      }
      savingId := None;
    }
  }

  /** A status chosen in a row's dropdown is what that row shows from then on. */
  lemma ShownStatusAfterChange(selection: map<string, Json>, req: Json, status: string)
    requires status != ""
    ensures ShownStatus(selection[RequestKey(req) := JStr(status)], req) == JStr(status)
  {
  }
}
