/** The target filter tools: `manageTargetFilter` (CRUD on a target filter
    query) and `manageTargetFilterAutoAssignment`. Neither has a preview gate:
    a valid request goes to the backend at once. */
module TargetFilters {
  import opened Values
  import opened Backend
  import JavaText

  /** The CRUD discriminator of `manageTargetFilter`. */
  datatype TargetFilterCrudAction = GET | CREATE | UPDATE | DELETE

  /** The discriminator of `manageTargetFilterAutoAssignment`. */
  datatype AutoAssignmentAction = GET | ASSIGN | UNASSIGN

  /** The requests these tools send to the target filter query REST API. */
  datatype FilterCall =
    | GetFilter(filterId: Long)
    | CreateFilter(body: Json)
    | UpdateFilter(filterId: Long, body: Json)
    | DeleteFilter(filterId: Long)
    | GetAssignedDistributionSet(filterId: Long)
    | PostAssignedDistributionSet(filterId: Long, body: Json)
    | DeleteAssignedDistributionSet(filterId: Long)

  // ---------------------------------------------------------------------
  // The documented parameter contract of manageTargetFilter: "Filter ID
  // (Required for GET, UPDATE, DELETE)", "Filter body (Required for CREATE
  // and UPDATE)".

  datatype FilterParam = FilterIdParam | FilterBodyParam

  function RequiredParams(action: TargetFilterCrudAction): set<FilterParam>
  {
    match action
    case GET => {FilterIdParam}
    case CREATE => {FilterBodyParam}
    case UPDATE => {FilterIdParam, FilterBodyParam}
    case DELETE => {FilterIdParam}
  }

  function SuppliedParams(filterId: Option<Long>, filterBody: Option<Json>): set<FilterParam>
  {
    (if filterId.Some? then {FilterIdParam} else {}) + (if filterBody.Some? then {FilterBodyParam} else {})
  }

  /** The CRUD action a request carries out, if it is one. */
  function CrudActionOf(c: FilterCall): Option<TargetFilterCrudAction>
  {
    match c
    case GetFilter(_) => Some(TargetFilterCrudAction.GET)
    case CreateFilter(_) => Some(CREATE)
    case UpdateFilter(_, _) => Some(UPDATE)
    case DeleteFilter(_) => Some(DELETE)
    case _ => None
  }

  /** The request carries exactly the arguments the caller supplied. */
  predicate Forwards(c: FilterCall, filterId: Option<Long>, filterBody: Option<Json>)
  {
    match c
    case GetFilter(id) => filterId == Some(id)
    case CreateFilter(body) => filterBody == Some(body)
    case UpdateFilter(id, body) => filterId == Some(id) && filterBody == Some(body)
    case DeleteFilter(id) => filterId == Some(id)
    case _ => false
  }

  /** The string a confirmed DELETE returns: the deleted filter's id can be
      read back from it. */
  function FilterDeletedMessage(filterId: Long): (m: string)
    ensures JavaText.Labels(m, "Target Filter ", " deleted successfully.", filterId)
  {
    JavaText.LabelledValueLabels("Target Filter ", " deleted successfully.", filterId);
    "Target Filter " + JavaText.LongText(filterId) + " deleted successfully."
  }

  lemma FilterDeletedMessageNamesFilter(a: Long, b: Long)
    requires FilterDeletedMessage(a) == FilterDeletedMessage(b)
    ensures a == b
  {
    JavaText.LabelledValueInjective("Target Filter ", " deleted successfully.", a, b);
  }

  /** The message of the IllegalArgumentException each action raises when an
      argument it requires is null: it names the required arguments. */
  function MissingArgumentMessage(action: TargetFilterCrudAction): (m: string)
    ensures 30 <= |m|
    ensures FilterIdParam in RequiredParams(action) && FilterBodyParam !in RequiredParams(action) ==> m[..9] == "Filter ID"
    ensures FilterBodyParam in RequiredParams(action) && FilterIdParam !in RequiredParams(action) ==> m[..11] == "Filter body"
    ensures FilterIdParam in RequiredParams(action) && FilterBodyParam in RequiredParams(action) ==> m[..18] == "Filter ID and Body"
  {
    match action
    case GET => "Filter ID is required for GET action"
    case CREATE => "Filter body is required for CREATE action"
    case UPDATE => "Filter ID and Body are required for UPDATE action"
    case DELETE => "Filter ID is required for DELETE action"
  }

  /** manageTargetFilter: no preview, ever. A missing required argument is an
      IllegalArgumentException and no call; otherwise exactly one request
      with the supplied arguments. */
  function ManageTargetFilterStep(action: TargetFilterCrudAction, filterId: Option<Long>, filterBody: Option<Json>): (s: Step<FilterCall>)
    ensures s.Call? <==> RequiredParams(action) <= SuppliedParams(filterId, filterBody)
    ensures s.Respond? ==> s.reply == Thrown(IllegalArgument(MissingArgumentMessage(action)))
    ensures s.Call? ==> CrudActionOf(s.call) == Some(action) && Forwards(s.call, filterId, filterBody)
    ensures s.Call? ==> s.finish == if action == DELETE then ReturnText(FilterDeletedMessage(s.call.filterId)) else ReturnBody
  {
    match action
    case GET =>
      if filterId.None? then Respond(Thrown(IllegalArgument("Filter ID is required for GET action")))
      else Call(GetFilter(filterId.value), ReturnBody)
    case CREATE =>
      if filterBody.None? then Respond(Thrown(IllegalArgument("Filter body is required for CREATE action")))
      else Call(CreateFilter(filterBody.value), ReturnBody)
    case UPDATE =>
      if filterId.None? || filterBody.None? then Respond(Thrown(IllegalArgument("Filter ID and Body are required for UPDATE action")))
      else Call(UpdateFilter(filterId.value, filterBody.value), ReturnBody)
    case DELETE =>
      if filterId.None? then Respond(Thrown(IllegalArgument("Filter ID is required for DELETE action")))
      else Call(DeleteFilter(filterId.value), ReturnText(FilterDeletedMessage(filterId.value)))
  }

  /** The string UNASSIGN returns: the filter's id can be read back from it. */
  function AutoAssignmentRemovedMessage(filterId: Long): (m: string)
    ensures JavaText.Labels(m, "Auto-assignment removed successfully from filter ", "", filterId)
  {
    JavaText.LabelledValueLabels("Auto-assignment removed successfully from filter ", "", filterId);
    assert "Auto-assignment removed successfully from filter " + JavaText.LongText(filterId) + ""
        == "Auto-assignment removed successfully from filter " + JavaText.LongText(filterId);
    "Auto-assignment removed successfully from filter " + JavaText.LongText(filterId)
  }

  lemma AutoAssignmentRemovedMessageNamesFilter(a: Long, b: Long)
    requires AutoAssignmentRemovedMessage(a) == AutoAssignmentRemovedMessage(b)
    ensures a == b
  {
    var p := "Auto-assignment removed successfully from filter ";
    assert AutoAssignmentRemovedMessage(a) == p + JavaText.LongText(a) + "";
    assert AutoAssignmentRemovedMessage(b) == p + JavaText.LongText(b) + "";
    JavaText.LabelledValueInjective(p, "", a, b);
  }

  /** manageTargetFilterAutoAssignment: only ASSIGN needs (and looks at) the
      assignment body; every request is on the given filter. */
  function AutoAssignmentStep(filterId: Long, action: AutoAssignmentAction, body: Option<Json>): (s: Step<FilterCall>)
    ensures s.Respond? <==> action == ASSIGN && body.None?
    ensures s.Respond? ==> s.reply == Thrown(IllegalArgument("Assignment body is required for ASSIGN action"))
    ensures s.Call? ==> !s.call.CreateFilter? && s.call.filterId == filterId
    ensures s.Call? && action == AutoAssignmentAction.GET ==> s.call.GetAssignedDistributionSet? && s.finish == ReturnBody
    ensures s.Call? && action == ASSIGN ==> s.call == PostAssignedDistributionSet(filterId, body.value) && s.finish == ReturnBody
    ensures s.Call? && action == UNASSIGN ==>
      s.call.DeleteAssignedDistributionSet? && s.finish == ReturnText(AutoAssignmentRemovedMessage(filterId))
  {
    match action
    case GET => Call(GetAssignedDistributionSet(filterId), ReturnBody)
    case ASSIGN =>
      if body.None? then Respond(Thrown(IllegalArgument("Assignment body is required for ASSIGN action")))
      else Call(PostAssignedDistributionSet(filterId, body.value), ReturnBody)
    case UNASSIGN => Call(DeleteAssignedDistributionSet(filterId), ReturnText(AutoAssignmentRemovedMessage(filterId)))
  }

  /** GET and UNASSIGN never inspect the body. */
  lemma AutoAssignmentIgnoresBody(filterId: Long, action: AutoAssignmentAction, b1: Option<Json>, b2: Option<Json>)
    requires action != ASSIGN
    ensures AutoAssignmentStep(filterId, action, b1) == AutoAssignmentStep(filterId, action, b2)
  {
  }

  class TargetFilterQueryService {
    const api: RestApi<FilterCall>

    constructor (api: RestApi<FilterCall>)
      ensures this.api == api
    {
      this.api := api;
    }

    method ManageTargetFilter(action: TargetFilterCrudAction, filterId: Option<Long>, filterBody: Option<Json>) returns (r: Reply)
      modifies api
      ensures api.calls == old(api.calls) + Sent(ManageTargetFilterStep(action, filterId, filterBody))
      ensures r == Outcome(ManageTargetFilterStep(action, filterId, filterBody), api.respond, old(api.calls))
      ensures !IsPreview(r)
    {
      r := Execute(api, ManageTargetFilterStep(action, filterId, filterBody));
    }

    method ManageTargetFilterAutoAssignment(filterId: Long, action: AutoAssignmentAction, body: Option<Json>) returns (r: Reply)
      modifies api
      ensures api.calls == old(api.calls) + Sent(AutoAssignmentStep(filterId, action, body))
      ensures r == Outcome(AutoAssignmentStep(filterId, action, body), api.respond, old(api.calls))
      ensures !IsPreview(r)
    {
      r := Execute(api, AutoAssignmentStep(filterId, action, body));
    }
  }
}
