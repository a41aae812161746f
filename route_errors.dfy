/**
 * What the two analysis routes share: the request body and the model call as
 * inputs, and what they read from a caught exception and how they turn it into
 * a status and an error classification.
 */
module RouteErrors {
  import opened Options
  import opened Json
  import JsText

  /** `error.status` and `error.message` of a caught exception (either may be undefined). */
  datatype ErrorInfo = ErrorInfo(status: Option<int>, message: Option<string>)

  /** An exception the JavaScript engine throws (a TypeError or a SyntaxError): no status, the engine's message. */
  function EngineError(message: string): (e: ErrorInfo)
    ensures e.status.None? && e.message == Some(message)
  {
    ErrorInfo(None, Some(message))
  }

  /** `error.status || 500`: a missing or zero status becomes 500. */
  function StatusOr500(e: ErrorInfo): (s: int)
    ensures e.status.Some? && e.status.value != 0 ==> s == e.status.value
    ensures e.status.None? || e.status.value == 0 ==> s == 500
    ensures s != 0
  {
    if e.status.Some? && e.status.value != 0 then e.status.value else 500
  }

  const QuotaText := "Quota Exceeded (429)"
  const ExhaustedMarker := "RESOURCE_EXHAUSTED"

  /** `status === 429 || error.message?.includes("RESOURCE_EXHAUSTED")`. */
  predicate QuotaExceeded(e: ErrorInfo) {
    StatusOr500(e) == 429 || (e.message.Some? && JsText.Contains(e.message.value, ExhaustedMarker))
  }

  /**
   * `{ message: error.message, status: error.status }` once serialised:
   * `JSON.stringify` drops the undefined members.
   */
  function Debug(e: ErrorInfo): (r: map<string, Json>)
    ensures "message" in r <==> e.message.Some?
    ensures "status" in r <==> e.status.Some?
    ensures e.message.Some? ==> r["message"] == Str(e.message.value)
    ensures e.status.Some? ==> r["status"] == Num(e.status.value as real)
    ensures r.Keys <= {"message", "status"}
  {
    var m: map<string, Json> := if e.message.Some? then map["message" := Str(e.message.value)] else map[];
    if e.status.Some? then m["status" := Num(e.status.value as real)] else m
  }

  /** An exception: what the handler reads from it, and how `JSON.stringify` shows it. */
  datatype Thrown = Thrown(info: ErrorInfo, full: Json)

  /** `await req.json()`: it throws, or yields the body. */
  datatype Request = Unreadable(error: Thrown) | Received(body: Json)

  /** The model call: it throws, or its reply has `candidates?.[0]?.content?.parts?.[0]?.text`. */
  datatype Generation = GenerationFailed(error: Thrown) | Generated(text: Option<string>)

  /** `responseText`: the reply text, or "{}" when there is none or it is empty. */
  function ReplyText(text: Option<string>): (r: string)
    ensures r != ""
    ensures text.Some? && text.value != "" ==> r == text.value
    ensures !(text.Some? && text.value != "") ==> r == "{}"
  {
    if text.Some? && text.value != "" then text.value else "{}"
  }
}
