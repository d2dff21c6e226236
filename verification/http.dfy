/**
 * The request, response and upstream-call shapes the route handlers work
 * with. A handler is modelled as a total function from the server
 * configuration, the incoming request and the upstream reply to an
 * `Exchange`: the upstream call it made (if any) and the response it gave.
 * The upstream reply is an input; it is only looked at when a call was made.
 */
module Http {
  import opened Wrappers
  import opened Js

  /** Process-wide configuration read once at start-up: `process.env.NEXTDNS_API_KEY`. */
  datatype Config = Config(apiKey: Option<string>)

  /** `!NEXTDNS_API_KEY` is false: the variable is set and not empty. */
  predicate KeyConfigured(cfg: Config) {
    cfg.apiKey.Some? && cfg.apiKey.value != ""
  }

  /**
   * An incoming request: the `profileId` query parameter as
   * `searchParams.get` returns it (`None` for null), and the request body
   * as `request.json()` would parse it (`None` when it is not JSON).
   */
  datatype Request = Request(profileId: Option<string>, body: Option<Value>)

  /** `!profileId` for a query parameter: absent or empty. */
  predicate MissingParam(p: Option<string>) {
    p.None? || p.value == ""
  }

  datatype Body = Text(text: string) | Json(value: Value)

  /**
   * A response the handler returns, or `Unhandled` when the handler throws
   * (the framework then answers with its own error page).
   */
  datatype Response =
    | Response(status: int, headers: seq<(string, string)>, body: Body)
    | Unhandled

  /** A call made with `fetch`. */
  datatype Fetch = Fetch(verb: string, url: string, headers: seq<(string, string)>, body: Option<Value>)

  /** The statuses a `fetch` response can carry: the range `Response.json` accepts without a `RangeError`. */
  type Status = s: int | 200 <= s <= 599 witness 200

  /**
   * What `fetch` resolves to: a status and a body that may or may not parse
   * as JSON; or a rejected promise (a network failure).
   */
  datatype Reply = Reply(status: Status, body: Option<Value>) | NetworkError {
    /** `response.ok`: the status is in the range 200-299. */
    predicate Ok()
      requires Reply?
    {
      200 <= status <= 299
    }
  }

  datatype Exchange = Exchange(call: Option<Fetch>, response: Response)

  const NextDnsApi := "https://api.nextdns.io"
  const MissingKeyMessage := "NEXTDNS_API_KEY is not configured on the server"

  /** The null-body statuses of the Fetch standard: a response with one of them cannot carry a body. */
  predicate IsNullBodyStatus(status: int) {
    status == 101 || status == 103 || status == 204 || status == 205 || status == 304
  }

  /**
   * `Response.json(value, { status })`. It throws a `RangeError` for a status
   * outside 200-599 and a `TypeError` for a null-body status, since the JSON
   * text is a body.
   */
  function JsonResponse(value: Value, status: int): Response {
    if status < 200 || 599 < status || IsNullBodyStatus(status) then Unhandled
    else Response(status, [("Content-Type", "application/json")], Json(value))
  }

  /** `Response.json({ error: message }, { status })`. */
  function ErrorResponse(message: Value, status: int): Response {
    JsonResponse(Obj(map["error" := message]), status)
  }

  /** The `error` member of a JSON error response, if the response is one. */
  function ErrorText(r: Response): Option<Value> {
    if r.Response? && r.body.Json? && r.body.value.Obj? && "error" in r.body.value.fields
    then Some(r.body.value.fields["error"])
    else None
  }

  /** `data?.message || data?.error || fallback`: the first truthy one of the body's `message`, its `error` and the fallback. */
  function FirstErrorText(errorData: Value, fallback: string): Value {
    var message := OptionalMember(errorData, "message");
    var error := OptionalMember(errorData, "error");
    if Truthy(message) then message
    else if Truthy(error) then error
    else Str(fallback)
  }

  /** The headers every call to the provider carries. */
  function ApiHeaders(key: string): seq<(string, string)> {
    [("Content-Type", "application/json"), ("X-Api-Key", key)]
  }
}
