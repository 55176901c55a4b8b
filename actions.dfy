/** The `queryActions` tool: pagination defaults, then a search or a lookup
    of one action. */
module Actions {
  import opened Values
  import opened Backend

  /** The discriminator of `queryActions`. */
  datatype ActionQueryType = SEARCH | GET_DETAILS

  /** The requests this tool sends to the action REST API. */
  datatype ActionCall =
    | GetActions(rsqlParam: Option<string>, offset: Int32, limit: Int32, sortParam: Option<string>)
    | GetAction(actionId: Long)

  const DEFAULT_OFFSET: Int32 := 0
  const DEFAULT_LIMIT: Int32 := 50

  /** A missing offset becomes 0 and a missing limit 50. A supplied value is
      kept as it is: a limit above the documented maximum of 50 is not clamped. */
  function Paging(offset: Option<Int32>, limit: Option<Int32>): (p: (Int32, Int32))
    ensures offset.None? ==> p.0 == DEFAULT_OFFSET
    ensures offset.Some? ==> p.0 == offset.value
    ensures limit.None? ==> p.1 == DEFAULT_LIMIT
    ensures limit.Some? ==> p.1 == limit.value
  {
    var finalOffset := if offset.Some? then offset.value else DEFAULT_OFFSET;
    var finalLimit := if limit.Some? then limit.value else DEFAULT_LIMIT;
    (finalOffset, finalLimit)
  }

  /** queryActions: SEARCH forwards filter, page and sort; GET_DETAILS needs
      the action id, looks up that one action and ignores everything else. */
  function QueryActionsStep(queryType: ActionQueryType, actionId: Option<Long>, rsqlParam: Option<string>,
                            offset: Option<Int32>, limit: Option<Int32>, sortParam: Option<string>): (s: Step<ActionCall>)
    ensures s.Respond? <==> queryType == GET_DETAILS && actionId.None?
    ensures s.Respond? ==> s.reply == Thrown(IllegalArgument("Action ID is required for GET_DETAILS"))
    ensures s.Call? ==> s.finish == ReturnBody
    ensures s.Call? && queryType == SEARCH ==>
      s.call.GetActions? && s.call.rsqlParam == rsqlParam && s.call.sortParam == sortParam
      && (s.call.offset, s.call.limit) == Paging(offset, limit)
    ensures s.Call? && queryType == GET_DETAILS ==> s.call == GetAction(actionId.value)
  {
    var (finalOffset, finalLimit) := Paging(offset, limit);
    match queryType
    case SEARCH => Call(GetActions(rsqlParam, finalOffset, finalLimit, sortParam), ReturnBody)
    case GET_DETAILS =>
      if actionId.None? then Respond(Thrown(IllegalArgument("Action ID is required for GET_DETAILS")))
      else Call(GetAction(actionId.value), ReturnBody)
  }

  /** GET_DETAILS ignores the filter, the page and the sort. */
  lemma DetailsIgnoreSearchArguments(actionId: Option<Long>,
                                     rsql1: Option<string>, offset1: Option<Int32>, limit1: Option<Int32>, sort1: Option<string>,
                                     rsql2: Option<string>, offset2: Option<Int32>, limit2: Option<Int32>, sort2: Option<string>)
    ensures QueryActionsStep(GET_DETAILS, actionId, rsql1, offset1, limit1, sort1)
         == QueryActionsStep(GET_DETAILS, actionId, rsql2, offset2, limit2, sort2)
  {
  }

  class ActionService {
    const api: RestApi<ActionCall>

    constructor (api: RestApi<ActionCall>)
      ensures this.api == api
    {
      this.api := api;
    }

    method QueryActions(queryType: ActionQueryType, actionId: Option<Long>, rsqlParam: Option<string>,
                        offset: Option<Int32>, limit: Option<Int32>, sortParam: Option<string>) returns (r: Reply)
      modifies api
      ensures api.calls == old(api.calls) + Sent(QueryActionsStep(queryType, actionId, rsqlParam, offset, limit, sortParam))
      ensures r == Outcome(QueryActionsStep(queryType, actionId, rsqlParam, offset, limit, sortParam), api.respond, old(api.calls))
      ensures !IsPreview(r)
    {
      r := Execute(api, QueryActionsStep(queryType, actionId, rsqlParam, offset, limit, sortParam));
    }
  }
}
