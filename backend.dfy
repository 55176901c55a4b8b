/** The hawkBit management REST API as the tools see it, and the shape of every
    tool's decision: answer locally, or make one backend call and build the
    reply from its answer. */
module Backend {
  import opened Values

  /** What one REST call yields: the response body, or the SDK's exception for
      a rejected call (a 4xx/5xx answer). */
  datatype Answer = Answered(body: Json) | Rejected(detail: string)

  /** How a tool turns a successful answer into its reply. */
  datatype Finish =
    | ReturnBody                                  // `return api.x(..).getBody()`
    | ReturnText(text: string)                    // a fixed confirmation string
    | ReturnEntries(entries: map<string, Value>)  // a fixed confirmation map
    | ReturnNothing                               // a `void` tool

  /** The decision a tool takes from its arguments alone. */
  datatype Step<C> =
    | Respond(reply: Reply)            // no backend call: a preview or a validation error
    | Call(call: C, finish: Finish)    // exactly one backend call

  /** The reply after the backend answered. A rejection propagates unchanged;
      a successful body is returned verbatim or replaced by a fixed value. */
  function Complete(finish: Finish, answer: Answer): (r: Reply)
    ensures answer.Rejected? <==> r.Thrown?
    ensures answer.Rejected? ==> r.failure == Remote(answer.detail)
    ensures answer.Answered? && finish.ReturnBody? ==> r == Payload(answer.body)
    ensures answer.Answered? && finish.ReturnText? ==> r == Message(finish.text)
    ensures answer.Answered? && finish.ReturnEntries? ==> r == Entries(finish.entries)
    ensures answer.Answered? && finish.ReturnNothing? ==> r == NoResult
    ensures IsPreview(r) ==> finish.ReturnEntries? && IsPreview(Entries(finish.entries))
  {
    match answer
    case Rejected(detail) => Thrown(Remote(detail))
    case Answered(body) =>
      match finish
      case ReturnBody => Payload(body)
      case ReturnText(text) => Message(text)
      case ReturnEntries(entries) => Entries(entries)
      case ReturnNothing => NoResult
  }

  /** The backend calls a step makes: none or one. */
  function Sent<C>(s: Step<C>): (calls: seq<C>)
    ensures |calls| <= 1
    ensures s.Respond? ==> calls == []
    ensures s.Call? ==> calls == [s.call]
  {
    match s
    case Respond(_) => []
    case Call(c, _) => [c]
  }

  /** The reply of a step against a backend that answers `respond(history, call)`. */
  function Outcome<C>(s: Step<C>, respond: (seq<C>, C) -> Answer, history: seq<C>): Reply
  {
    match s
    case Respond(r) => r
    case Call(c, f) => Complete(f, respond(history, c))
  }

  /** One management REST API client. It records every request it is sent, in
      order, and answers each request as a fixed function of the requests sent
      before it and the request itself (the backend's own state and rules are
      not modelled). */
  class RestApi<C> {
    var calls: seq<C>
    const respond: (seq<C>, C) -> Answer

    constructor (respond: (seq<C>, C) -> Answer)
      ensures calls == [] && this.respond == respond
    {
      calls := [];
      this.respond := respond;
    }

    /** Sends one REST request. */
    method Invoke(call: C) returns (answer: Answer)
      modifies this
      ensures calls == old(calls) + [call]
      ensures answer == respond(old(calls), call)
    {
      answer := respond(calls, call);
      calls := calls + [call];
    }
  }

  /** Carries out a step: at most one request reaches the backend. */
  method Execute<C>(api: RestApi<C>, s: Step<C>) returns (r: Reply)
    modifies api
    ensures api.calls == old(api.calls) + Sent(s)
    ensures r == Outcome(s, api.respond, old(api.calls))
  {
    match s
    case Respond(reply) =>
      r := reply;
    case Call(c, f) =>
      var answer := api.Invoke(c);
      r := Complete(f, answer);
  }
}
