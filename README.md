# hawkBit MCP server: guarded tool dispatch

This project models the tools of the hawkBit MCP server that change
things on an Eclipse hawkBit update server. An AI agent calls these tools.
Each tool receives its arguments and does one of three things:

- it answers locally with a *preview* map that echoes what would happen;
- it answers locally with an `IllegalArgumentException` when a required
  argument is missing;
- it sends exactly one request to the hawkBit management REST API and
  turns the answer into its reply.

The model covers these tools:

- `manageRollout` and `manageRolloutState` of `RolloutService`;
- the mutating tools of `TargetService`;
- `manageTargetFilter` and `manageTargetFilterAutoAssignment` of
  `TargetFilterQueryService`;
- `queryActions` of `ActionService`.

The modules:

- **Values** holds the shared values:
  - Java nullables (`Option`) and the widths `long` and `int`;
  - opaque request and response bodies (`Json`);
  - the entries of the result maps;
  - the reply of a tool;
  - the preview gate: `Confirmed` is the negation of
    `confirm == null || !confirm`, and `IsPreview` recognises a preview
    reply by its fixed message.
- **Backend** defines the decision every tool takes, `Step`: either
  respond without a call, or make one call and finish with the body, a
  fixed string, a fixed map or nothing. It also holds the REST client
  `RestApi`. The client is an object that records every request it is
  sent, and answers each request as a function of the earlier requests.
  `Execute` carries out a step against that client.
- **JavaText** models Java's decimal `Long.toString`, which the
  confirmation strings use (`"Rollout " + rolloutId + " deleted successfully."`).
  It proves that the text parses back to the number. From that it proves
  that each confirmation string names exactly one rollout or filter, and
  one verb.
- **Rollouts**, **Targets**, **TargetFilters** and **Actions** follow the
  four service classes. Each tool that decides something before it calls
  the backend is modelled twice:
  - as a pure decision function (`...Step`) whose contract states the gate,
    the validation, the request sent and the reply;
  - as a method of a service class that changes the client's request log.
    In the rollout and target services, the method builds the preview map
    entry by entry, as the Java code does. The method is proved against
    the decision function.

  The seven target tools without a gate (`updateMetadata`, `updateAction`,
  `updateActionConfirmation`, `assignTargetType`, `unassignTargetType`,
  `activateAutoConfirm` and `deactivateAutoConfirm`) decide nothing. Each
  forwards its arguments in one request. They are modelled only as
  methods, whose contracts state that request and the reply.

The validation is checked against the documented parameter contract of
each tool, taken from its parameter descriptions
(for example "Rollout ID (Required for GET, UPDATE, DELETE)"). It is
modelled as `RequiredParams`, `SuppliedParams` and `Persists`. A request
is sent exactly when the required parameters are a subset of the supplied
ones.

Some behaviour of the code is worth spelling out:

- `manageTargetFilter`, `manageTargetFilterAutoAssignment` and the seven
  ungated target tools have no preview gate. A valid request goes to the
  backend at once, including the filter tools' DELETE and UNASSIGN.
- In `manageRolloutState`, every action is gated, RETRY included. RETRY
  returns the backend's body instead of a confirmation string.
- The gate of `manageRollout` runs before validation. An unconfirmed
  CREATE with no body gets a preview, not an error.
- `queryActions` fills in a missing offset (0) and limit (50). A supplied
  limit is passed on unchanged, even above the documented maximum of 50.
- The `default: throw ... "Unsupported action"` branches cannot be
  reached, because the switches cover every enum constant. The model has
  no such branch.

## Model

| member | source | states |
|---|---|---|
| Values.Confirmed | src/main/java/com/romulo/hawkbit/mcp/service/RolloutService.java:101 | the gate stops a call exactly when `confirm` is null or false |
| Values.IsPreview | src/main/java/com/romulo/hawkbit/mcp/service/RolloutService.java:53 | a preview is a map holding a "message" entry; a map whose message is a string is a preview exactly when that string is the fixed preview text |
| Values.Boxed | src/main/java/com/romulo/hawkbit/mcp/service/TargetService.java:173 | a null Boolean is stored under its key as a null value, and a non-null one as its value |
| Backend.Complete | src/main/java/com/romulo/hawkbit/mcp/service/TargetService.java:102 | a rejected REST call propagates as the tool's exception; otherwise `getBody()` returns the body unchanged, a fixed string or a fixed result map replaces it, and a `void` tool returns nothing; a reply built after a call is a preview only if the fixed map was one |
| Backend.Sent | src/main/java/com/romulo/hawkbit/mcp/service/TargetService.java:62 | a tool decision sends at most one request: none when it responds locally, and exactly its request otherwise |
| Backend.RestApi.constructor | src/main/java/com/romulo/hawkbit/mcp/service/TargetService.java:34-36 | a new client has sent nothing yet |
| Backend.RestApi.Invoke | src/main/java/com/romulo/hawkbit/mcp/service/TargetService.java:62 | a request is appended to the client's log, and the answer depends only on the earlier requests and the request |
| Backend.Execute | src/main/java/com/romulo/hawkbit/mcp/service/RolloutService.java:64-88 | carrying out a decision appends exactly the requests it sends, and returns the reply built from the backend's answer |
| JavaText.DigitValue | src/main/java/com/romulo/hawkbit/mcp/service/RolloutService.java:84 | a decimal digit character has a value below ten, and denotes that value |
| JavaText.Digits | src/main/java/com/romulo/hawkbit/mcp/service/RolloutService.java:84 | the decimal text of a natural number is a non-empty string of digits; it starts with "0" only when it is exactly "0" |
| JavaText.DigitsRoundTrip | src/main/java/com/romulo/hawkbit/mcp/service/RolloutService.java:84 | reading the decimal digits of a number gives the number back |
| JavaText.LongText | src/main/java/com/romulo/hawkbit/mcp/service/RolloutService.java:84 | `Long.toString`: a minus sign exactly for negative numbers, then digits, with no leading zero: "0" only for zero, and no "-0" |
| JavaText.LongTextRoundTrip | src/main/java/com/romulo/hawkbit/mcp/service/RolloutService.java:84 | parsing the text of a `long` gives the number back |
| JavaText.LongTextInjective | src/main/java/com/romulo/hawkbit/mcp/service/RolloutService.java:84 | two different `long` values have different texts |
| JavaText.LabelledValueInjective | src/main/java/com/romulo/hawkbit/mcp/service/RolloutService.java:84 | a fixed prefix, a number's text and a fixed suffix determine the number |
| JavaText.LabelledValueLabels | src/main/java/com/romulo/hawkbit/mcp/service/RolloutService.java:84 | a string concatenated from a prefix, a number and a suffix holds the prefix, then the number's text, then the suffix, at fixed positions |
| JavaText.LabelsReadBack | src/main/java/com/romulo/hawkbit/mcp/service/RolloutService.java:84 | the number can be parsed back from between the prefix and the suffix of such a string |
| JavaText.SplitBeforeSpace | src/main/java/com/romulo/hawkbit/mcp/service/RolloutService.java:116-136 | when a number's text is followed by a suffix that starts with a space, the string determines both the number and the suffix |
| JavaText.PrefixedSplitBeforeSpace | src/main/java/com/romulo/hawkbit/mcp/service/RolloutService.java:116-136 | the same holds after a common fixed prefix |
| Rollouts.DeletedMessage | src/main/java/com/romulo/hawkbit/mcp/service/RolloutService.java:84 | the DELETE confirmation is "Rollout ", the rollout id's decimal text and " deleted successfully." |
| Rollouts.DeletedMessageNamesRollout | src/main/java/com/romulo/hawkbit/mcp/service/RolloutService.java:84 | the deletion confirmation names the deleted rollout: equal strings mean equal ids |
| Rollouts.RolloutPreview | src/main/java/com/romulo/hawkbit/mcp/service/RolloutService.java:52-61 | the manageRollout preview is a preview; it always carries the action, and carries each optional argument exactly when it is non-null, under a fixed key set |
| Rollouts.MissingArgumentMessage | src/main/java/com/romulo/hawkbit/mcp/service/RolloutService.java:66-82 | each action's IllegalArgumentException message is the source's text and names the arguments the action needs: "Rollout ID" for GET and DELETE, "Create body" for CREATE, "Rollout ID and Update body" for UPDATE |
| Rollouts.RolloutCrudDispatch | src/main/java/com/romulo/hawkbit/mcp/service/RolloutService.java:64-88 | a request is sent exactly when every parameter the action requires is supplied; otherwise an IllegalArgumentException whose message names the action's required arguments; the request is the action's own and carries the supplied arguments; DELETE replies with the confirmation string naming the rollout, the others with the body |
| Rollouts.ManageRolloutStep | src/main/java/com/romulo/hawkbit/mcp/service/RolloutService.java:39-89 | an unconfirmed CREATE, UPDATE or DELETE answers with the preview, whatever else is missing; a request is sent exactly when the gate is passed and all required arguments are present; an exception exactly when the gate is passed and one is missing |
| Rollouts.StateMessage | src/main/java/com/romulo/hawkbit/mcp/service/RolloutService.java:114-136 | each verb's confirmation is a fixed opening, the rollout id's decimal text and a fixed ending: "Next group processing triggered for Rollout " and nothing for TRIGGER_NEXT_GROUP, "Rollout " and the verb for the others |
| Rollouts.StateSuffix | src/main/java/com/romulo/hawkbit/mcp/service/RolloutService.java:116-136 | the verb ending of "Rollout <id> <verb>." starts with a space, which keeps it apart from the id's text |
| Rollouts.StateMessageIdentifiesVerb | src/main/java/com/romulo/hawkbit/mcp/service/RolloutService.java:113-137 | the confirmation string of a state change tells which verb was applied to which rollout |
| Rollouts.StateMessageHead | src/main/java/com/romulo/hawkbit/mcp/service/RolloutService.java:126-128 | the TRIGGER_NEXT_GROUP confirmation starts differently from every other verb's |
| Rollouts.SuffixedMessageInjective | src/main/java/com/romulo/hawkbit/mcp/service/RolloutService.java:114-136 | for the "Rollout <id> <verb>." messages, the string determines the verb and the id |
| Rollouts.RolloutStatePreview | src/main/java/com/romulo/hawkbit/mcp/service/RolloutService.java:102-108 | the manageRolloutState preview always carries the action and the rollout id, and carries the remark exactly when it is non-null |
| Rollouts.StateRequest | src/main/java/com/romulo/hawkbit/mcp/service/RolloutService.java:111-139 | each verb sends its own request on the given rollout; APPROVE and DENY send the remark, or "" when it is null |
| Rollouts.RolloutStateDispatch | src/main/java/com/romulo/hawkbit/mcp/service/RolloutService.java:111-143 | once confirmed, every verb sends its own request on the given rollout; APPROVE and DENY send the remark, or "" when it is null; RETRY, and only RETRY, returns the body; every other verb returns its confirmation string |
| Rollouts.RemarkOnlyReachesApproveAndDeny | src/main/java/com/romulo/hawkbit/mcp/service/RolloutService.java:111-139 | the remark has no effect on any verb other than APPROVE and DENY |
| Rollouts.ManageRolloutStateStep | src/main/java/com/romulo/hawkbit/mcp/service/RolloutService.java:91-144 | every verb, RETRY included, answers with the preview and sends nothing unless `confirm` is true |
| Rollouts.RolloutService.constructor | src/main/java/com/romulo/hawkbit/mcp/service/RolloutService.java:25-27 | the service talks to the given rollout client |
| Rollouts.RolloutService.ManageRollout | src/main/java/com/romulo/hawkbit/mcp/service/RolloutService.java:39-89 | builds the preview entry by entry, and otherwise carries out the dispatch; the log grows by exactly the decision's request; the reply is a preview exactly for an unconfirmed persisting action |
| Rollouts.RolloutService.ManageRolloutState | src/main/java/com/romulo/hawkbit/mcp/service/RolloutService.java:91-144 | the same for the state tool; the reply is a preview exactly when `confirm` is not true |
| Rollouts.DeletedMessageOf42 | src/main/java/com/romulo/hawkbit/mcp/service/RolloutService.java:84 | the DELETE confirmation of rollout 42 is "Rollout 42 deleted successfully." |
| Rollouts.DeleteRolloutPreviewExample | src/main/java/com/romulo/hawkbit/mcp/service/RolloutService.java:51-61 | deleting rollout 42 without confirmation gives exactly the preview map {message, action DELETE, rolloutId 42} |
| Rollouts.DeleteRolloutConfirmedExample | src/main/java/com/romulo/hawkbit/mcp/service/RolloutService.java:80-84 | deleting rollout 42 with confirmation sends delete(42) and replies "Rollout 42 deleted successfully." |
| Rollouts.DeleteRolloutScenario | src/main/java/com/romulo/hawkbit/mcp/service/RolloutService.java:51-84 | against a client that accepts everything, the two calls give the preview and then the confirmation string, and the client sees exactly one delete(42) |
| Targets.CreateTargetsStep | src/main/java/com/romulo/hawkbit/mcp/service/TargetService.java:49-63 | without confirmation, a preview with the targets and their count and no request; with confirmation, one createTargets request with the list unchanged, returning the body |
| Targets.DeleteTargetStep | src/main/java/com/romulo/hawkbit/mcp/service/TargetService.java:70-83 | without confirmation, a preview naming the target; with confirmation, one deleteTarget request |
| Targets.MetadataCreated | src/main/java/com/romulo/hawkbit/mcp/service/TargetService.java:102 | the createMetadata result has exactly the message "Metadata created successfully" and the target; it is not a preview |
| Targets.CreateMetadataStep | src/main/java/com/romulo/hawkbit/mcp/service/TargetService.java:87-103 | the metadata preview carries the entries and the target; once confirmed, one createMetadata request and the fixed result map |
| Targets.MetadataDeleted | src/main/java/com/romulo/hawkbit/mcp/service/TargetService.java:120 | the deleteMetadata result has exactly the message "Metadata deleted successfully", the target and the key; it is not a preview |
| Targets.DeleteMetadataStep | src/main/java/com/romulo/hawkbit/mcp/service/TargetService.java:105-121 | the preview carries the key and the target; once confirmed, one deleteMetadata request and the fixed result map |
| Targets.ActionCanceled | src/main/java/com/romulo/hawkbit/mcp/service/TargetService.java:178 | the cancelAction result has exactly the message "Action canceled successfully" and the action id; it is not a preview |
| Targets.CancelActionStep | src/main/java/com/romulo/hawkbit/mcp/service/TargetService.java:161-179 | the preview always has a "force" key, null exactly when force is null; once confirmed, one cancelAction request that passes force unchanged |
| Targets.AssignDistributionSetStep | src/main/java/com/romulo/hawkbit/mcp/service/TargetService.java:223-243 | the preview always has an "offline" key, null exactly when offline is null; once confirmed, one postAssignedDistributionSet request that passes offline unchanged, returning the body |
| Targets.TargetService.constructor | src/main/java/com/romulo/hawkbit/mcp/service/TargetService.java:34-36 | the service talks to the given target client |
| Targets.TargetService.CreateTargets | src/main/java/com/romulo/hawkbit/mcp/service/TargetService.java:49-63 | carries out CreateTargetsStep; the reply is a preview exactly when `confirm` is not true |
| Targets.TargetService.DeleteTarget | src/main/java/com/romulo/hawkbit/mcp/service/TargetService.java:70-83 | carries out DeleteTargetStep; the reply is a preview exactly when `confirm` is not true |
| Targets.TargetService.CreateMetadata | src/main/java/com/romulo/hawkbit/mcp/service/TargetService.java:87-103 | carries out CreateMetadataStep; the reply is a preview exactly when `confirm` is not true |
| Targets.TargetService.DeleteMetadata | src/main/java/com/romulo/hawkbit/mcp/service/TargetService.java:105-121 | carries out DeleteMetadataStep; the reply is a preview exactly when `confirm` is not true |
| Targets.TargetService.CancelAction | src/main/java/com/romulo/hawkbit/mcp/service/TargetService.java:161-179 | carries out CancelActionStep; the reply is a preview exactly when `confirm` is not true |
| Targets.TargetService.AssignDistributionSet | src/main/java/com/romulo/hawkbit/mcp/service/TargetService.java:223-243 | carries out AssignDistributionSetStep; the reply is a preview exactly when `confirm` is not true |
| Targets.TargetService.UpdateMetadata | src/main/java/com/romulo/hawkbit/mcp/service/TargetService.java:133-136 | no gate: one updateMetadata request, whatever the caller sends; never a preview |
| Targets.TargetService.UpdateAction | src/main/java/com/romulo/hawkbit/mcp/service/TargetService.java:181-184 | no gate: one updateAction request, returning its body; never a preview |
| Targets.TargetService.UpdateActionConfirmation | src/main/java/com/romulo/hawkbit/mcp/service/TargetService.java:186-194 | no gate: one updateActionConfirmation request; never a preview |
| Targets.TargetService.AssignTargetType | src/main/java/com/romulo/hawkbit/mcp/service/TargetService.java:247-250 | no gate: one assignTargetType request; never a preview |
| Targets.TargetService.UnassignTargetType | src/main/java/com/romulo/hawkbit/mcp/service/TargetService.java:252-255 | no gate: one unassignTargetType request; never a preview |
| Targets.TargetService.ActivateAutoConfirm | src/main/java/com/romulo/hawkbit/mcp/service/TargetService.java:259-262 | no gate: one activateAutoConfirm request; never a preview |
| Targets.TargetService.DeactivateAutoConfirm | src/main/java/com/romulo/hawkbit/mcp/service/TargetService.java:264-267 | no gate: one deactivateAutoConfirm request; never a preview |
| TargetFilters.FilterDeletedMessage | src/main/java/com/romulo/hawkbit/mcp/service/TargetFilterQueryService.java:61 | the DELETE confirmation is "Target Filter ", the filter id's decimal text and " deleted successfully." |
| TargetFilters.FilterDeletedMessageNamesFilter | src/main/java/com/romulo/hawkbit/mcp/service/TargetFilterQueryService.java:57-61 | the deletion confirmation names the deleted filter |
| TargetFilters.MissingArgumentMessage | src/main/java/com/romulo/hawkbit/mcp/service/TargetFilterQueryService.java:43-59 | each action's IllegalArgumentException message is the source's text and names the arguments the action needs: "Filter ID" for GET and DELETE, "Filter body" for CREATE, "Filter ID and Body" for UPDATE |
| TargetFilters.ManageTargetFilterStep | src/main/java/com/romulo/hawkbit/mcp/service/TargetFilterQueryService.java:34-66 | no preview: a request is sent exactly when every required parameter is supplied; otherwise an IllegalArgumentException whose message names the action's required arguments; the request is the action's own and carries the supplied arguments; DELETE replies with the confirmation string |
| TargetFilters.AutoAssignmentRemovedMessage | src/main/java/com/romulo/hawkbit/mcp/service/TargetFilterQueryService.java:86 | the UNASSIGN confirmation is "Auto-assignment removed successfully from filter " followed by the filter id's decimal text |
| TargetFilters.AutoAssignmentRemovedMessageNamesFilter | src/main/java/com/romulo/hawkbit/mcp/service/TargetFilterQueryService.java:84-86 | the unassignment confirmation names the filter |
| TargetFilters.AutoAssignmentStep | src/main/java/com/romulo/hawkbit/mcp/service/TargetFilterQueryService.java:68-91 | no preview: an exception exactly for ASSIGN without a body, with the source's message; every request is on the given filter; GET and ASSIGN return the body, UNASSIGN the confirmation string |
| TargetFilters.AutoAssignmentIgnoresBody | src/main/java/com/romulo/hawkbit/mcp/service/TargetFilterQueryService.java:75-90 | GET and UNASSIGN do not depend on the body |
| TargetFilters.TargetFilterQueryService.constructor | src/main/java/com/romulo/hawkbit/mcp/service/TargetFilterQueryService.java:20-22 | the service talks to the given filter client |
| TargetFilters.TargetFilterQueryService.ManageTargetFilter | src/main/java/com/romulo/hawkbit/mcp/service/TargetFilterQueryService.java:34-66 | carries out ManageTargetFilterStep; never a preview |
| TargetFilters.TargetFilterQueryService.ManageTargetFilterAutoAssignment | src/main/java/com/romulo/hawkbit/mcp/service/TargetFilterQueryService.java:68-91 | carries out AutoAssignmentStep; never a preview |
| Actions.Paging | src/main/java/com/romulo/hawkbit/mcp/service/ActionService.java:34-35 | a missing offset is 0 and a missing limit 50; supplied values are kept as given |
| Actions.QueryActionsStep | src/main/java/com/romulo/hawkbit/mcp/service/ActionService.java:20-51 | an exception exactly for GET_DETAILS without an id, with the source's message; SEARCH forwards the filter and the sort with the defaulted page; GET_DETAILS looks up exactly the given action |
| Actions.DetailsIgnoreSearchArguments | src/main/java/com/romulo/hawkbit/mcp/service/ActionService.java:42-46 | GET_DETAILS never depends on the filter, the page or the sort |
| Actions.ActionService.constructor | src/main/java/com/romulo/hawkbit/mcp/service/ActionService.java:16-18 | the service talks to the given action client |
| Actions.ActionService.QueryActions | src/main/java/com/romulo/hawkbit/mcp/service/ActionService.java:20-51 | carries out QueryActionsStep; never a preview |

## Left out

- The read-only tools (`getRollouts`, `getTargets`, `getTarget`,
  `getMetadata`, `getActionHistory`, the rollout group tools and the
  others) are left out. Each one forwards its arguments to one GET request
  and returns the body unchanged, with no gate and no validation.
- The `RolloutGroupView` enum is left out. No tool in the modelled files
  uses it.
- `TargetTagService`, `TargetTypeService`, the search-field schemas and the
  client and OAuth2 configuration are not part of this model.
- The MCP and Spring binding is left out: tool registration, JSON
  (de)serialisation of arguments, and how `Object` results are rendered.
  A reply is modelled as a map, a string, the body, nothing, or an
  exception.
- Request and response bodies are opaque (`Json`). Their fields and the
  backend's validation of them are not modelled.
- The backend's state and business rules are left out, for example
  whether a rollout can be started. The client answers every request as a
  fixed function of the earlier requests, so any backend behaviour can be
  plugged in. Which exception a rejected call raises is abstracted to
  `Remote`.
- `Backend.Outcome` carries no contract of its own. It is the reference
  that the service methods are proved against.
- Java `null` is left out for every parameter the tool schema treats as
  required. These are the ones declared `required = true`, the ones
  annotated without `required` (`createTargets`' list of targets), and the
  ones with no annotation at all (`assignDistributionSet`'s controller id
  and assignments, and every argument of the ungated target tools). The
  model gives them non-null types. So it cannot produce what Java does
  with such a null. For example, an unconfirmed `assignDistributionSet`
  with null assignments returns a preview with a null
  "distributionSetAssignments" entry. The NullPointerExceptions that
  `Map.of`, `targets.size()` or a `switch` on a null action would raise
  are not modelled either.
- The representation-mode argument that `getActions` passes
  (`REQUEST_PARAMETER_REPRESENTATION_MODE_DEFAULT`) is a fixed constant,
  so `GetActions` leaves it out.
- The iteration order of the `HashMap` previews is left out: a preview is
  a map, with no order.
- Concurrency is left out. The Feign HTTP transport and authentication are
  left out as well.
