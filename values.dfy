/** Values that cross the tool boundary: Java nullables, the integer widths the
    tools use, opaque hawkBit bodies, the entries of the maps the tools return,
    and the reply of a tool call. */
module Values {

  /** A Java reference parameter that the caller may leave null. */
  datatype Option<+T> = None | Some(value: T)

  /** Java `long` / `Long` values (identifiers of rollouts, filters, actions). */
  type Long = x: int | -0x8000_0000_0000_0000 <= x < 0x8000_0000_0000_0000

  /** Java `int` / `Integer` values (offsets and limits). */
  type Int32 = x: int | -0x8000_0000 <= x < 0x8000_0000

  /** A hawkBit request or response body. Its contents belong to the backend
      and the SDK; this model only passes it along and never looks inside. */
  datatype Json = Json(text: string)

  /** A value stored in one of the `Map<String, Object>` results. */
  datatype Value =
    | Text(text: string)     // a String
    | Number(number: int)    // a Long or an int
    | Flag(flag: bool)       // a non-null Boolean
    | Null                   // a null stored under a key (HashMap allows it)
    | Enum(name: string)     // an enum constant, seen by the agent by its name
    | Doc(doc: Json)         // a request body
    | Docs(docs: seq<Json>)  // a list of request bodies

  /** Why a tool call ended with an exception. */
  datatype Failure =
    | IllegalArgument(message: string)  // raised locally, before any backend call
    | Remote(detail: string)            // raised by the SDK for a rejected REST call

  /** What a tool returns to the agent (its Java result type is `Object`). */
  datatype Reply =
    | Entries(entries: map<string, Value>)  // a java.util.Map
    | Message(text: string)                 // a confirmation String
    | Payload(body: Json)                   // the SDK response body, unchanged
    | NoResult                              // a `void` tool that returned normally
    | Thrown(failure: Failure)              // the tool threw

  /** The preview gate lets a call through only when `confirm` is true: it
      stops it when `confirm == null || !confirm`. */
  function Confirmed(confirm: Option<bool>): (b: bool)
    ensures !b <==> confirm.None? || !confirm.value
  {
    confirm == Some(true)
  }

  const PREVIEW_MESSAGE := "PREVIEW MODE: No changes were made. Please confirm to proceed."

  /** A reply is a preview when it is a map whose "message" is the preview text. */
  function IsPreview(r: Reply): (b: bool)
    ensures b ==> r.Entries? && "message" in r.entries
    ensures r.Entries? && "message" in r.entries && r.entries["message"].Text? ==>
      (b <==> r.entries["message"].text == PREVIEW_MESSAGE)
  {
    r.Entries? && "message" in r.entries && r.entries["message"] == Text(PREVIEW_MESSAGE)
  }

  /** A nullable Boolean as it lands in a map entry. */
  function Boxed(b: Option<bool>): (v: Value)
    ensures b.None? <==> v == Null
    ensures b.Some? ==> v == Flag(b.value)
  {
    match b
    case None => Null
    case Some(x) => Flag(x)
  }
}
