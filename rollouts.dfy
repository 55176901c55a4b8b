/** The rollout tools: `manageRollout` (CRUD on a rollout behind the preview
    gate) and `manageRolloutState` (the lifecycle verbs behind the same gate). */
module Rollouts {
  import opened Values
  import opened Backend
  import JavaText

  /** The CRUD discriminator of `manageRollout`. */
  datatype RolloutCrudAction = GET | CREATE | UPDATE | DELETE
  {
    function Name(): string
    {
      match this
      case GET => "GET"
      case CREATE => "CREATE"
      case UPDATE => "UPDATE"
      case DELETE => "DELETE"
    }
  }

  /** The lifecycle verbs of `manageRolloutState`. */
  datatype RolloutAction = START | PAUSE | RESUME | APPROVE | DENY | TRIGGER_NEXT_GROUP | RETRY
  {
    function Name(): string
    {
      match this
      case START => "START"
      case PAUSE => "PAUSE"
      case RESUME => "RESUME"
      case APPROVE => "APPROVE"
      case DENY => "DENY"
      case TRIGGER_NEXT_GROUP => "TRIGGER_NEXT_GROUP"
      case RETRY => "RETRY"
    }
  }

  /** The requests these tools send to the rollout REST API. */
  datatype RolloutCall =
    | GetRollout(rolloutId: Long)
    | Create(createBody: Json)
    | Update(rolloutId: Long, updateBody: Json)
    | Delete(rolloutId: Long)
    | Start(rolloutId: Long)
    | Pause(rolloutId: Long)
    | Resume(rolloutId: Long)
    | TriggerNextGroup(rolloutId: Long)
    | Approve(rolloutId: Long, remark: string)
    | Deny(rolloutId: Long, remark: string)
    | RetryRollout(rolloutId: Long)

  /** The CRUD action a request carries out, if it is one. */
  function CrudActionOf(c: RolloutCall): Option<RolloutCrudAction>
  {
    match c
    case GetRollout(_) => Some(GET)
    case Create(_) => Some(CREATE)
    case Update(_, _) => Some(UPDATE)
    case Delete(_) => Some(DELETE)
    case _ => None
  }

  /** The lifecycle verb a request carries out, if it is one. */
  function VerbOf(c: RolloutCall): Option<RolloutAction>
  {
    match c
    case Start(_) => Some(START)
    case Pause(_) => Some(PAUSE)
    case Resume(_) => Some(RESUME)
    case TriggerNextGroup(_) => Some(TRIGGER_NEXT_GROUP)
    case Approve(_, _) => Some(APPROVE)
    case Deny(_, _) => Some(DENY)
    case RetryRollout(_) => Some(RETRY)
    case _ => None
  }

  // ---------------------------------------------------------------------
  // The documented parameter contract of manageRollout: which optional
  // argument each action needs, and which actions persist changes.

  datatype RolloutParam = RolloutIdParam | CreateBodyParam | UpdateBodyParam

  function RequiredParams(action: RolloutCrudAction): set<RolloutParam>
  {
    match action
    case GET => {RolloutIdParam}
    case CREATE => {CreateBodyParam}
    case UPDATE => {RolloutIdParam, UpdateBodyParam}
    case DELETE => {RolloutIdParam}
  }

  /** "Set to true to persist changes (CREATE, UPDATE, DELETE)". */
  predicate Persists(action: RolloutCrudAction)
  {
    action != GET
  }

  /** The optional arguments the caller did not leave null. */
  function SuppliedParams(rolloutId: Option<Long>, createBody: Option<Json>, updateBody: Option<Json>): set<RolloutParam>
  {
    (if rolloutId.Some? then {RolloutIdParam} else {})
    + (if createBody.Some? then {CreateBodyParam} else {})
    + (if updateBody.Some? then {UpdateBodyParam} else {})
  }

  predicate AllSupplied(action: RolloutCrudAction, rolloutId: Option<Long>, createBody: Option<Json>, updateBody: Option<Json>)
  {
    RequiredParams(action) <= SuppliedParams(rolloutId, createBody, updateBody)
  }

  /** The request carries exactly the arguments the caller supplied. */
  predicate Forwards(c: RolloutCall, rolloutId: Option<Long>, createBody: Option<Json>, updateBody: Option<Json>)
  {
    match c
    case GetRollout(id) => rolloutId == Some(id)
    case Create(body) => createBody == Some(body)
    case Update(id, body) => rolloutId == Some(id) && updateBody == Some(body)
    case Delete(id) => rolloutId == Some(id)
    case _ => false
  }

  // ---------------------------------------------------------------------
  // manageRollout

  /** The string a confirmed DELETE returns: the deleted rollout's id can be
      read back from it. */
  function DeletedMessage(rolloutId: Long): (m: string)
    ensures JavaText.Labels(m, "Rollout ", " deleted successfully.", rolloutId)
  {
    JavaText.LabelledValueLabels("Rollout ", " deleted successfully.", rolloutId);
    "Rollout " + JavaText.LongText(rolloutId) + " deleted successfully."
  }

  /** The confirmation of a deletion names the deleted rollout. */
  lemma DeletedMessageNamesRollout(a: Long, b: Long)
    requires DeletedMessage(a) == DeletedMessage(b)
    ensures a == b
  {
    JavaText.LabelledValueInjective("Rollout ", " deleted successfully.", a, b);
  }

  /** The preview map of an unconfirmed CRUD action: the action is always
      echoed, each optional argument exactly when it is non-null. */
  function RolloutPreview(action: RolloutCrudAction, rolloutId: Option<Long>, createBody: Option<Json>, updateBody: Option<Json>): (m: map<string, Value>)
    ensures IsPreview(Entries(m))
    ensures m.Keys <= {"message", "action", "rolloutId", "createBody", "updateBody"}
    ensures "action" in m && m["action"] == Enum(action.Name())
    ensures ("rolloutId" in m <==> rolloutId.Some?) && (rolloutId.Some? ==> m["rolloutId"] == Number(rolloutId.value))
    ensures ("createBody" in m <==> createBody.Some?) && (createBody.Some? ==> m["createBody"] == Doc(createBody.value))
    ensures ("updateBody" in m <==> updateBody.Some?) && (updateBody.Some? ==> m["updateBody"] == Doc(updateBody.value))
  {
    var m := map["message" := Text(PREVIEW_MESSAGE), "action" := Enum(action.Name())];
    var m := if rolloutId.Some? then m["rolloutId" := Number(rolloutId.value)] else m;
    var m := if createBody.Some? then m["createBody" := Doc(createBody.value)] else m;
    if updateBody.Some? then m["updateBody" := Doc(updateBody.value)] else m
  }

  /** The message of the IllegalArgumentException each action raises when an
      argument it requires is null: it names the required arguments. */
  function MissingArgumentMessage(action: RolloutCrudAction): (m: string)
    ensures 30 <= |m|
    ensures RolloutIdParam in RequiredParams(action) && UpdateBodyParam !in RequiredParams(action) ==> m[..10] == "Rollout ID"
    ensures CreateBodyParam in RequiredParams(action) ==> m[..11] == "Create body"
    ensures UpdateBodyParam in RequiredParams(action) ==> m[..26] == "Rollout ID and Update body"
  {
    match action
    case GET => "Rollout ID is required for GET action"
    case CREATE => "Create body is required for CREATE action"
    case UPDATE => "Rollout ID and Update body are required for UPDATE action"
    case DELETE => "Rollout ID is required for DELETE action"
  }

  /** The `switch` of manageRollout, reached once the gate is passed: a
      missing required argument is an IllegalArgumentException and no call;
      otherwise exactly one request with the supplied arguments. */
  function RolloutCrudDispatch(action: RolloutCrudAction, rolloutId: Option<Long>, createBody: Option<Json>, updateBody: Option<Json>): (s: Step<RolloutCall>)
    ensures s.Call? <==> AllSupplied(action, rolloutId, createBody, updateBody)
    ensures s.Respond? ==> s.reply == Thrown(IllegalArgument(MissingArgumentMessage(action)))
    ensures s.Call? ==> CrudActionOf(s.call) == Some(action) && Forwards(s.call, rolloutId, createBody, updateBody)
    ensures s.Call? ==> s.finish == if action == DELETE then ReturnText(DeletedMessage(s.call.rolloutId)) else ReturnBody
  {
    match action
    case GET =>
      if rolloutId.None? then Respond(Thrown(IllegalArgument("Rollout ID is required for GET action")))
      else Call(GetRollout(rolloutId.value), ReturnBody)
    case CREATE =>
      if createBody.None? then Respond(Thrown(IllegalArgument("Create body is required for CREATE action")))
      else Call(Create(createBody.value), ReturnBody)
    case UPDATE =>
      if rolloutId.None? || updateBody.None? then
        Respond(Thrown(IllegalArgument("Rollout ID and Update body are required for UPDATE action")))
      else Call(Update(rolloutId.value, updateBody.value), ReturnBody)
    case DELETE =>
      if rolloutId.None? then Respond(Thrown(IllegalArgument("Rollout ID is required for DELETE action")))
      else Call(Delete(rolloutId.value), ReturnText(DeletedMessage(rolloutId.value)))
  }

  /** manageRollout: the preview gate runs before any validation, so an
      unconfirmed persisting action is answered with a preview whatever its
      other arguments are. */
  function ManageRolloutStep(action: RolloutCrudAction, rolloutId: Option<Long>, createBody: Option<Json>, updateBody: Option<Json>, confirm: Option<bool>): (s: Step<RolloutCall>)
    ensures Persists(action) && !Confirmed(confirm) ==> s == Respond(Entries(RolloutPreview(action, rolloutId, createBody, updateBody)))
    ensures s.Call? <==> (!Persists(action) || Confirmed(confirm)) && AllSupplied(action, rolloutId, createBody, updateBody)
    ensures s.Respond? && s.reply.Thrown? <==> (!Persists(action) || Confirmed(confirm)) && !AllSupplied(action, rolloutId, createBody, updateBody)
    ensures !Persists(action) || Confirmed(confirm) ==> s == RolloutCrudDispatch(action, rolloutId, createBody, updateBody)
  {
    if action != GET && !Confirmed(confirm) then Respond(Entries(RolloutPreview(action, rolloutId, createBody, updateBody)))
    else RolloutCrudDispatch(action, rolloutId, createBody, updateBody)
  }

  // ---------------------------------------------------------------------
  // manageRolloutState

  /** The confirmation string of each verb but RETRY: the rollout's id can be
      read back from between a fixed opening and a fixed ending. */
  function StateMessage(action: RolloutAction, rolloutId: Long): (m: string)
    requires action != RETRY
    ensures JavaText.Labels(m, StateOpening(action), StateEnding(action), rolloutId)
  {
    JavaText.LabelledValueLabels(StateOpening(action), StateEnding(action), rolloutId);
    StateOpening(action) + JavaText.LongText(rolloutId) + StateEnding(action)
  }

  function StateOpening(action: RolloutAction): string
  {
    if action == TRIGGER_NEXT_GROUP then "Next group processing triggered for Rollout " else "Rollout "
  }

  function StateEnding(action: RolloutAction): string
    requires action != RETRY
  {
    if action == TRIGGER_NEXT_GROUP then "" else StateSuffix(action)
  }

  /** The verb part of a "Rollout <id> <verb>." string. It starts with a
      space, which the text of a number never holds. */
  function StateSuffix(action: RolloutAction): (s: string)
    requires action != RETRY && action != TRIGGER_NEXT_GROUP
    ensures 1 <= |s| && s[0] == ' '
  {
    match action
    case START => " started."
    case PAUSE => " paused."
    case RESUME => " resumed."
    case APPROVE => " approved."
    case DENY => " denied."
  }

  lemma StateMessageHead(action: RolloutAction, rolloutId: Long)
    requires action != RETRY
    ensures StateMessage(action, rolloutId)[0] == if action == TRIGGER_NEXT_GROUP then 'N' else 'R'
  {
    var m := StateMessage(action, rolloutId);
    var p := StateOpening(action);
    assert m[..|p|] == p;
    assert m[0] == m[..|p|][0] == p[0];
    if action == TRIGGER_NEXT_GROUP {
      assert p == "Next group processing triggered for Rollout ";
    } else {
      assert p == "Rollout ";
    }
  }

  lemma SuffixedMessageInjective(a1: RolloutAction, i1: Long, a2: RolloutAction, i2: Long)
    requires a1 != RETRY && a1 != TRIGGER_NEXT_GROUP && a2 != RETRY && a2 != TRIGGER_NEXT_GROUP
    requires StateMessage(a1, i1) == StateMessage(a2, i2)
    ensures a1 == a2 && i1 == i2
  {
    JavaText.PrefixedSplitBeforeSpace("Rollout ", i1, StateSuffix(a1), i2, StateSuffix(a2));
  }

  /** The confirmation string tells which verb was applied to which rollout. */
  lemma StateMessageIdentifiesVerb(a1: RolloutAction, i1: Long, a2: RolloutAction, i2: Long)
    requires a1 != RETRY && a2 != RETRY
    requires StateMessage(a1, i1) == StateMessage(a2, i2)
    ensures a1 == a2 && i1 == i2
  {
    if a1 == TRIGGER_NEXT_GROUP && a2 == TRIGGER_NEXT_GROUP {
      var p := "Next group processing triggered for Rollout ";
      assert StateMessage(a1, i1) == p + JavaText.LongText(i1) + "";
      assert StateMessage(a2, i2) == p + JavaText.LongText(i2) + "";
      JavaText.LabelledValueInjective(p, "", i1, i2);
    } else if a1 == TRIGGER_NEXT_GROUP || a2 == TRIGGER_NEXT_GROUP {
      StateMessageHead(a1, i1);
      StateMessageHead(a2, i2);
    } else {
      SuffixedMessageInjective(a1, i1, a2, i2);
    }
  }

  /** The preview map of an unconfirmed verb: action and rollout always,
      the remark only when it is non-null. */
  function RolloutStatePreview(rolloutId: Long, action: RolloutAction, remark: Option<string>): (m: map<string, Value>)
    ensures IsPreview(Entries(m))
    ensures m.Keys <= {"message", "action", "rolloutId", "remark"}
    ensures "action" in m && m["action"] == Enum(action.Name())
    ensures "rolloutId" in m && m["rolloutId"] == Number(rolloutId)
    ensures ("remark" in m <==> remark.Some?) && (remark.Some? ==> m["remark"] == Text(remark.value))
  {
    var m := map["message" := Text(PREVIEW_MESSAGE), "action" := Enum(action.Name()), "rolloutId" := Number(rolloutId)];
    if remark.Some? then m["remark" := Text(remark.value)] else m
  }

  /** The request each verb of manageRolloutState sends: APPROVE and DENY
      forward the remark, or "" when it is null. */
  function StateRequest(rolloutId: Long, action: RolloutAction, remark: Option<string>): (c: RolloutCall)
    ensures VerbOf(c) == Some(action) && c.rolloutId == rolloutId
    ensures action == APPROVE || action == DENY ==> c.remark == if remark.Some? then remark.value else ""
  {
    var finalRemark := if remark.Some? then remark.value else "";
    match action
    case START => Start(rolloutId)
    case PAUSE => Pause(rolloutId)
    case RESUME => Resume(rolloutId)
    case TRIGGER_NEXT_GROUP => TriggerNextGroup(rolloutId)
    case APPROVE => Approve(rolloutId, finalRemark)
    case DENY => Deny(rolloutId, finalRemark)
    case RETRY => RetryRollout(rolloutId)
  }

  /** The `switch` of manageRolloutState, reached once confirmed: one request
      for the verb on the given rollout. RETRY returns the backend's body,
      every other verb its fixed confirmation string. */
  function RolloutStateDispatch(rolloutId: Long, action: RolloutAction, remark: Option<string>): (s: Step<RolloutCall>)
    ensures s.Call? && VerbOf(s.call) == Some(action) && s.call.rolloutId == rolloutId
    ensures action == APPROVE || action == DENY ==> s.call.remark == if remark.Some? then remark.value else ""
    ensures s.finish.ReturnBody? <==> action == RETRY
    ensures action != RETRY ==> s.finish == ReturnText(StateMessage(action, rolloutId))
  {
    Call(StateRequest(rolloutId, action, remark),
         if action == RETRY then ReturnBody else ReturnText(StateMessage(action, rolloutId)))
  }

  /** Only APPROVE and DENY look at the remark. */
  lemma RemarkOnlyReachesApproveAndDeny(rolloutId: Long, action: RolloutAction, r1: Option<string>, r2: Option<string>)
    requires action != APPROVE && action != DENY
    ensures RolloutStateDispatch(rolloutId, action, r1) == RolloutStateDispatch(rolloutId, action, r2)
  {
  }

  /** manageRolloutState: every verb, RETRY included, is gated. */
  function ManageRolloutStateStep(rolloutId: Long, action: RolloutAction, remark: Option<string>, confirm: Option<bool>): (s: Step<RolloutCall>)
    ensures s.Respond? <==> !Confirmed(confirm)
    ensures s.Respond? ==> s.reply == Entries(RolloutStatePreview(rolloutId, action, remark))
    ensures s.Call? ==> s == RolloutStateDispatch(rolloutId, action, remark)
  {
    if !Confirmed(confirm) then Respond(Entries(RolloutStatePreview(rolloutId, action, remark)))
    else RolloutStateDispatch(rolloutId, action, remark)
  }

  // ---------------------------------------------------------------------
  // The service object

  class RolloutService {
    const api: RestApi<RolloutCall>

    constructor (api: RestApi<RolloutCall>)
      ensures this.api == api
    {
      this.api := api;
    }

    method ManageRollout(action: RolloutCrudAction, rolloutId: Option<Long>, createBody: Option<Json>, updateBody: Option<Json>, confirm: Option<bool>)
      returns (r: Reply)
      modifies api
      ensures api.calls == old(api.calls) + Sent(ManageRolloutStep(action, rolloutId, createBody, updateBody, confirm))
      ensures r == Outcome(ManageRolloutStep(action, rolloutId, createBody, updateBody, confirm), api.respond, old(api.calls))
      ensures IsPreview(r) <==> Persists(action) && !Confirmed(confirm)
    {
      if action != GET && !Confirmed(confirm) {
        var preview: map<string, Value> := map[];
        preview := preview["message" := Text(PREVIEW_MESSAGE)];
        preview := preview["action" := Enum(action.Name())];
        if rolloutId.Some? {
          preview := preview["rolloutId" := Number(rolloutId.value)];
        }
        if createBody.Some? {
          preview := preview["createBody" := Doc(createBody.value)];
        }
        if updateBody.Some? {
          preview := preview["updateBody" := Doc(updateBody.value)];
        }
        return Entries(preview);
      }
      r := Execute(api, RolloutCrudDispatch(action, rolloutId, createBody, updateBody));
    }

    method ManageRolloutState(rolloutId: Long, action: RolloutAction, remark: Option<string>, confirm: Option<bool>)
      returns (r: Reply)
      modifies api
      ensures api.calls == old(api.calls) + Sent(ManageRolloutStateStep(rolloutId, action, remark, confirm))
      ensures r == Outcome(ManageRolloutStateStep(rolloutId, action, remark, confirm), api.respond, old(api.calls))
      ensures IsPreview(r) <==> !Confirmed(confirm)
    {
      if !Confirmed(confirm) {
        var preview: map<string, Value> := map[];
        preview := preview["message" := Text(PREVIEW_MESSAGE)];
        preview := preview["action" := Enum(action.Name())];
        preview := preview["rolloutId" := Number(rolloutId)];
        if remark.Some? {
          preview := preview["remark" := Text(remark.value)];
        }
        return Entries(preview);
      }
      r := Execute(api, RolloutStateDispatch(rolloutId, action, remark));
    }
  }

  /** A delete of rollout 42: a preview without confirmation, one `delete(42)`
      request and its confirmation string with it. */
  lemma DeleteRolloutPreviewExample()
    ensures ManageRolloutStep(DELETE, Some(42), None, None, None)
         == Respond(Entries(map["message" := Text(PREVIEW_MESSAGE), "action" := Enum("DELETE"), "rolloutId" := Number(42)]))
  {
  }

  lemma DeletedMessageOf42()
    ensures DeletedMessage(42) == "Rollout 42 deleted successfully."
  {
    assert JavaText.LongText(42) == "42" by {
      assert JavaText.DigitChar(2) == '2' && JavaText.Digits(4) == "4";
      assert JavaText.Digits(42) == JavaText.Digits(4) + [JavaText.DigitChar(2)];
    }
  }

  lemma DeleteRolloutConfirmedExample()
    ensures ManageRolloutStep(DELETE, Some(42), None, None, Some(true))
         == Call(Delete(42), ReturnText("Rollout 42 deleted successfully."))
  {
    DeletedMessageOf42();
  }

  /** A client of the service: deleting rollout 42, first without and then
      with confirmation, against a backend that accepts every request. */
  method DeleteRolloutScenario() returns (preview: Reply, done: Reply, calls: seq<RolloutCall>)
    ensures preview == Entries(map["message" := Text(PREVIEW_MESSAGE), "action" := Enum("DELETE"), "rolloutId" := Number(42)])
    ensures done == Message("Rollout 42 deleted successfully.")
    ensures calls == [Delete(42)]
  {
    DeleteRolloutPreviewExample();
    DeleteRolloutConfirmedExample();
    var api := new RestApi<RolloutCall>((history, call) => Answered(Json("")));
    var service := new RolloutService(api);
    preview := service.ManageRollout(DELETE, Some(42), None, None, None);
    done := service.ManageRollout(DELETE, Some(42), None, None, Some(true));
    calls := api.calls;
  }
}
