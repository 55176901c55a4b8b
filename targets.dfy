/** The mutating target tools: six behind the preview gate (createTargets,
    deleteTarget, createMetadata, deleteMetadata, cancelAction,
    assignDistributionSet) and the ones that call the backend at once. */
module Targets {
  import opened Values
  import opened Backend

  /** The requests these tools send to the target REST API. */
  datatype TargetCall =
    | CreateTargets(targets: seq<Json>)
    | DeleteTarget(controllerId: string)
    | CreateMetadata(controllerId: string, metadata: seq<Json>)
    | DeleteMetadata(controllerId: string, metadataKey: string)
    | UpdateMetadata(controllerId: string, metadataKey: string, body: Json)
    | CancelAction(controllerId: string, actionId: Long, force: Option<bool>)
    | UpdateAction(controllerId: string, actionId: Long, body: Json)
    | UpdateActionConfirmation(controllerId: string, actionId: Long, body: Json)
    | PostAssignedDistributionSet(controllerId: string, assignments: Json, offline: Option<bool>)
    | AssignTargetType(controllerId: string, targetTypeId: Json)
    | UnassignTargetType(controllerId: string)
    | ActivateAutoConfirm(controllerId: string, body: Json)
    | DeactivateAutoConfirm(controllerId: string)

  // ---------------------------------------------------------------------
  // The gated tools, as decisions on their arguments. Each one answers
  // with a preview and no call unless `confirm` is true, and otherwise makes
  // exactly one request carrying its arguments unchanged.

  function CreateTargetsStep(targets: seq<Json>, confirm: Option<bool>): (s: Step<TargetCall>)
    ensures s.Respond? <==> !Confirmed(confirm)
    ensures s.Respond? ==> (IsPreview(s.reply)
        && s.reply.entries.Keys == {"message", "targetsToCreate", "count"}
        && s.reply.entries["targetsToCreate"] == Docs(targets)
        && s.reply.entries["count"] == Number(|targets|))
    ensures s.Call? ==> s.call == CreateTargets(targets) && s.finish == ReturnBody
  {
    if !Confirmed(confirm) then
      Respond(Entries(map["message" := Text(PREVIEW_MESSAGE), "targetsToCreate" := Docs(targets), "count" := Number(|targets|)]))
    else
      Call(CreateTargets(targets), ReturnBody)
  }

  function DeleteTargetStep(controllerId: string, confirm: Option<bool>): (s: Step<TargetCall>)
    ensures s.Respond? <==> !Confirmed(confirm)
    ensures s.Respond? ==> (IsPreview(s.reply)
        && s.reply.entries.Keys == {"message", "targetToDelete"}
        && s.reply.entries["targetToDelete"] == Text(controllerId))
    ensures s.Call? ==> s.call == DeleteTarget(controllerId) && s.finish == ReturnBody
  {
    if !Confirmed(confirm) then
      Respond(Entries(map["message" := Text(PREVIEW_MESSAGE), "targetToDelete" := Text(controllerId)]))
    else
      Call(DeleteTarget(controllerId), ReturnBody)
  }

  /** The map createMetadata returns once the metadata is created. */
  function MetadataCreated(controllerId: string): (m: map<string, Value>)
    ensures !IsPreview(Entries(m))
    ensures m.Keys == {"message", "target"} && m["target"] == Text(controllerId)
    ensures m["message"] == Text("Metadata created successfully")
  {
    map["message" := Text("Metadata created successfully"), "target" := Text(controllerId)]
  }

  function CreateMetadataStep(controllerId: string, metadata: seq<Json>, confirm: Option<bool>): (s: Step<TargetCall>)
    ensures s.Respond? <==> !Confirmed(confirm)
    ensures s.Respond? ==> (IsPreview(s.reply)
        && s.reply.entries.Keys == {"message", "metadataToCreate", "target"}
        && s.reply.entries["metadataToCreate"] == Docs(metadata)
        && s.reply.entries["target"] == Text(controllerId))
    ensures s.Call? ==> s.call == CreateMetadata(controllerId, metadata) && s.finish == ReturnEntries(MetadataCreated(controllerId))
  {
    if !Confirmed(confirm) then
      Respond(Entries(map["message" := Text(PREVIEW_MESSAGE), "metadataToCreate" := Docs(metadata), "target" := Text(controllerId)]))
    else
      Call(CreateMetadata(controllerId, metadata), ReturnEntries(MetadataCreated(controllerId)))
  }

  /** The map deleteMetadata returns once the entry is deleted. */
  function MetadataDeleted(controllerId: string, metadataKey: string): (m: map<string, Value>)
    ensures !IsPreview(Entries(m))
    ensures m.Keys == {"message", "target", "key"}
    ensures m["message"] == Text("Metadata deleted successfully")
    ensures m["target"] == Text(controllerId) && m["key"] == Text(metadataKey)
  {
    map["message" := Text("Metadata deleted successfully"), "target" := Text(controllerId), "key" := Text(metadataKey)]
  }

  function DeleteMetadataStep(controllerId: string, metadataKey: string, confirm: Option<bool>): (s: Step<TargetCall>)
    ensures s.Respond? <==> !Confirmed(confirm)
    ensures s.Respond? ==> (IsPreview(s.reply)
        && s.reply.entries.Keys == {"message", "metadataToDelete", "target"}
        && s.reply.entries["metadataToDelete"] == Text(metadataKey)
        && s.reply.entries["target"] == Text(controllerId))
    ensures s.Call? ==> s.call == DeleteMetadata(controllerId, metadataKey) && s.finish == ReturnEntries(MetadataDeleted(controllerId, metadataKey))
  {
    if !Confirmed(confirm) then
      Respond(Entries(map["message" := Text(PREVIEW_MESSAGE), "metadataToDelete" := Text(metadataKey), "target" := Text(controllerId)]))
    else
      Call(DeleteMetadata(controllerId, metadataKey), ReturnEntries(MetadataDeleted(controllerId, metadataKey)))
  }

  /** The map cancelAction returns once the action is canceled. */
  function ActionCanceled(actionId: Long): (m: map<string, Value>)
    ensures !IsPreview(Entries(m))
    ensures m.Keys == {"message", "actionId"} && m["actionId"] == Number(actionId)
    ensures m["message"] == Text("Action canceled successfully")
  {
    map["message" := Text("Action canceled successfully"), "actionId" := Number(actionId)]
  }

  /** The preview always holds "force", with a null value when force is null. */
  function CancelActionStep(controllerId: string, actionId: Long, force: Option<bool>, confirm: Option<bool>): (s: Step<TargetCall>)
    ensures s.Respond? <==> !Confirmed(confirm)
    ensures s.Respond? ==> (IsPreview(s.reply)
        && s.reply.entries.Keys == {"message", "actionToCancel", "target", "force"}
        && s.reply.entries["actionToCancel"] == Number(actionId)
        && s.reply.entries["target"] == Text(controllerId)
        && (s.reply.entries["force"] == Null <==> force.None?)
        && (force.Some? ==> s.reply.entries["force"] == Flag(force.value)))
    ensures s.Call? ==> s.call == CancelAction(controllerId, actionId, force) && s.finish == ReturnEntries(ActionCanceled(actionId))
  {
    if !Confirmed(confirm) then
      Respond(Entries(map["message" := Text(PREVIEW_MESSAGE), "actionToCancel" := Number(actionId),
                          "target" := Text(controllerId), "force" := Boxed(force)]))
    else
      Call(CancelAction(controllerId, actionId, force), ReturnEntries(ActionCanceled(actionId)))
  }

  /** `offline` reaches the backend as given, null included. */
  function AssignDistributionSetStep(controllerId: string, assignments: Json, offline: Option<bool>, confirm: Option<bool>): (s: Step<TargetCall>)
    ensures s.Respond? <==> !Confirmed(confirm)
    ensures s.Respond? ==> (IsPreview(s.reply)
        && s.reply.entries.Keys == {"message", "distributionSetAssignments", "target", "offline"}
        && s.reply.entries["distributionSetAssignments"] == Doc(assignments)
        && s.reply.entries["target"] == Text(controllerId)
        && (s.reply.entries["offline"] == Null <==> offline.None?)
        && (offline.Some? ==> s.reply.entries["offline"] == Flag(offline.value)))
    ensures s.Call? ==> s.call == PostAssignedDistributionSet(controllerId, assignments, offline) && s.finish == ReturnBody
  {
    if !Confirmed(confirm) then
      Respond(Entries(map["message" := Text(PREVIEW_MESSAGE), "distributionSetAssignments" := Doc(assignments),
                          "target" := Text(controllerId), "offline" := Boxed(offline)]))
    else
      Call(PostAssignedDistributionSet(controllerId, assignments, offline), ReturnBody)
  }

  // ---------------------------------------------------------------------
  // The service object

  class TargetService {
    const api: RestApi<TargetCall>

    constructor (api: RestApi<TargetCall>)
      ensures this.api == api
    {
      this.api := api;
    }

    method CreateTargets(targets: seq<Json>, confirm: Option<bool>) returns (r: Reply)
      modifies api
      ensures api.calls == old(api.calls) + Sent(CreateTargetsStep(targets, confirm))
      ensures r == Outcome(CreateTargetsStep(targets, confirm), api.respond, old(api.calls))
      ensures IsPreview(r) <==> !Confirmed(confirm)
    {
      if !Confirmed(confirm) {
        var preview: map<string, Value> := map[];
        preview := preview["message" := Text(PREVIEW_MESSAGE)];
        preview := preview["targetsToCreate" := Docs(targets)];
        preview := preview["count" := Number(|targets|)];
        return Entries(preview);
      }
      var answer := api.Invoke(TargetCall.CreateTargets(targets));
      r := Complete(ReturnBody, answer);
    }

    method DeleteTarget(controllerId: string, confirm: Option<bool>) returns (r: Reply)
      modifies api
      ensures api.calls == old(api.calls) + Sent(DeleteTargetStep(controllerId, confirm))
      ensures r == Outcome(DeleteTargetStep(controllerId, confirm), api.respond, old(api.calls))
      ensures IsPreview(r) <==> !Confirmed(confirm)
    {
      if !Confirmed(confirm) {
        var preview: map<string, Value> := map[];
        preview := preview["message" := Text(PREVIEW_MESSAGE)];
        preview := preview["targetToDelete" := Text(controllerId)];
        return Entries(preview);
      }
      var answer := api.Invoke(TargetCall.DeleteTarget(controllerId));
      r := Complete(ReturnBody, answer);
    }

    method CreateMetadata(controllerId: string, metadata: seq<Json>, confirm: Option<bool>) returns (r: Reply)
      modifies api
      ensures api.calls == old(api.calls) + Sent(CreateMetadataStep(controllerId, metadata, confirm))
      ensures r == Outcome(CreateMetadataStep(controllerId, metadata, confirm), api.respond, old(api.calls))
      ensures IsPreview(r) <==> !Confirmed(confirm)
    {
      if !Confirmed(confirm) {
        var preview: map<string, Value> := map[];
        preview := preview["message" := Text(PREVIEW_MESSAGE)];
        preview := preview["metadataToCreate" := Docs(metadata)];
        preview := preview["target" := Text(controllerId)];
        return Entries(preview);
      }
      var answer := api.Invoke(TargetCall.CreateMetadata(controllerId, metadata));
      r := Complete(ReturnEntries(MetadataCreated(controllerId)), answer);
    }

    method DeleteMetadata(controllerId: string, metadataKey: string, confirm: Option<bool>) returns (r: Reply)
      modifies api
      ensures api.calls == old(api.calls) + Sent(DeleteMetadataStep(controllerId, metadataKey, confirm))
      ensures r == Outcome(DeleteMetadataStep(controllerId, metadataKey, confirm), api.respond, old(api.calls))
      ensures IsPreview(r) <==> !Confirmed(confirm)
    {
      if !Confirmed(confirm) {
        var preview: map<string, Value> := map[];
        preview := preview["message" := Text(PREVIEW_MESSAGE)];
        preview := preview["metadataToDelete" := Text(metadataKey)];
        preview := preview["target" := Text(controllerId)];
        return Entries(preview);
      }
      var answer := api.Invoke(TargetCall.DeleteMetadata(controllerId, metadataKey));
      r := Complete(ReturnEntries(MetadataDeleted(controllerId, metadataKey)), answer);
    }

    method CancelAction(controllerId: string, actionId: Long, force: Option<bool>, confirm: Option<bool>) returns (r: Reply)
      modifies api
      ensures api.calls == old(api.calls) + Sent(CancelActionStep(controllerId, actionId, force, confirm))
      ensures r == Outcome(CancelActionStep(controllerId, actionId, force, confirm), api.respond, old(api.calls))
      ensures IsPreview(r) <==> !Confirmed(confirm)
    {
      if !Confirmed(confirm) {
        var preview: map<string, Value> := map[];
        preview := preview["message" := Text(PREVIEW_MESSAGE)];
        preview := preview["actionToCancel" := Number(actionId)];
        preview := preview["target" := Text(controllerId)];
        preview := preview["force" := Boxed(force)];
        return Entries(preview);
      }
      var answer := api.Invoke(TargetCall.CancelAction(controllerId, actionId, force));
      r := Complete(ReturnEntries(ActionCanceled(actionId)), answer);
    }

    method AssignDistributionSet(controllerId: string, assignments: Json, offline: Option<bool>, confirm: Option<bool>) returns (r: Reply)
      modifies api
      ensures api.calls == old(api.calls) + Sent(AssignDistributionSetStep(controllerId, assignments, offline, confirm))
      ensures r == Outcome(AssignDistributionSetStep(controllerId, assignments, offline, confirm), api.respond, old(api.calls))
      ensures IsPreview(r) <==> !Confirmed(confirm)
    {
      if !Confirmed(confirm) {
        var preview: map<string, Value> := map[];
        preview := preview["message" := Text(PREVIEW_MESSAGE)];
        preview := preview["distributionSetAssignments" := Doc(assignments)];
        preview := preview["target" := Text(controllerId)];
        preview := preview["offline" := Boxed(offline)];
        return Entries(preview);
      }
      var answer := api.Invoke(TargetCall.PostAssignedDistributionSet(controllerId, assignments, offline));
      r := Complete(ReturnBody, answer);
    }

    // The tools below have no gate: one request, whatever the caller sends.

    method UpdateMetadata(controllerId: string, metadataKey: string, body: Json) returns (r: Reply)
      modifies api
      ensures api.calls == old(api.calls) + [TargetCall.UpdateMetadata(controllerId, metadataKey, body)]
      ensures r == Complete(ReturnNothing, api.respond(old(api.calls), TargetCall.UpdateMetadata(controllerId, metadataKey, body)))
      ensures !IsPreview(r)
    {
      var answer := api.Invoke(TargetCall.UpdateMetadata(controllerId, metadataKey, body));
      r := Complete(ReturnNothing, answer);
    }

    method UpdateAction(controllerId: string, actionId: Long, body: Json) returns (r: Reply)
      modifies api
      ensures api.calls == old(api.calls) + [TargetCall.UpdateAction(controllerId, actionId, body)]
      ensures r == Complete(ReturnBody, api.respond(old(api.calls), TargetCall.UpdateAction(controllerId, actionId, body)))
      ensures !IsPreview(r)
    {
      var answer := api.Invoke(TargetCall.UpdateAction(controllerId, actionId, body));
      r := Complete(ReturnBody, answer);
    }

    method UpdateActionConfirmation(controllerId: string, actionId: Long, body: Json) returns (r: Reply)
      modifies api
      ensures api.calls == old(api.calls) + [TargetCall.UpdateActionConfirmation(controllerId, actionId, body)]
      ensures r == Complete(ReturnNothing, api.respond(old(api.calls), TargetCall.UpdateActionConfirmation(controllerId, actionId, body)))
      ensures !IsPreview(r)
    {
      var answer := api.Invoke(TargetCall.UpdateActionConfirmation(controllerId, actionId, body));
      r := Complete(ReturnNothing, answer);
    }

    method AssignTargetType(controllerId: string, targetTypeId: Json) returns (r: Reply)
      modifies api
      ensures api.calls == old(api.calls) + [TargetCall.AssignTargetType(controllerId, targetTypeId)]
      ensures r == Complete(ReturnNothing, api.respond(old(api.calls), TargetCall.AssignTargetType(controllerId, targetTypeId)))
      ensures !IsPreview(r)
    {
      var answer := api.Invoke(TargetCall.AssignTargetType(controllerId, targetTypeId));
      r := Complete(ReturnNothing, answer);
    }

    method UnassignTargetType(controllerId: string) returns (r: Reply)
      modifies api
      ensures api.calls == old(api.calls) + [TargetCall.UnassignTargetType(controllerId)]
      ensures r == Complete(ReturnNothing, api.respond(old(api.calls), TargetCall.UnassignTargetType(controllerId)))
      ensures !IsPreview(r)
    {
      var answer := api.Invoke(TargetCall.UnassignTargetType(controllerId));
      r := Complete(ReturnNothing, answer);
    }

    method ActivateAutoConfirm(controllerId: string, body: Json) returns (r: Reply)
      modifies api
      ensures api.calls == old(api.calls) + [TargetCall.ActivateAutoConfirm(controllerId, body)]
      ensures r == Complete(ReturnNothing, api.respond(old(api.calls), TargetCall.ActivateAutoConfirm(controllerId, body)))
      ensures !IsPreview(r)
    {
      var answer := api.Invoke(TargetCall.ActivateAutoConfirm(controllerId, body));
      r := Complete(ReturnNothing, answer);
    }

    method DeactivateAutoConfirm(controllerId: string) returns (r: Reply)
      modifies api
      ensures api.calls == old(api.calls) + [TargetCall.DeactivateAutoConfirm(controllerId)]
      ensures r == Complete(ReturnNothing, api.respond(old(api.calls), TargetCall.DeactivateAutoConfirm(controllerId)))
      ensures !IsPreview(r)
    {
      var answer := api.Invoke(TargetCall.DeactivateAutoConfirm(controllerId));
      r := Complete(ReturnNothing, answer);
    }
  }
}
