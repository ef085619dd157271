/** Responses, the outcome of one handler call, and request parameters. */
module Http {
  import opened Wrappers
  import opened Json
  import opened Store

  /** Status, JSON body and the `Set-Cookie` header, if any. */
  datatype Response = Response(status: int, body: Json, setCookie: Option<string>)

  /** What one call of a handler does: the response it sends and the store
      requests it issued, in order. */
  datatype Outcome = Outcome(response: Response, calls: seq<Request>)

  type Cookies = map<string, string>

  /** `url.searchParams`. */
  type Params = map<string, string>

  function Reply(status: int, body: Json): Response {
    Response(status, body, None)
  }

  function Error(status: int, msg: string): Response {
    Reply(status, ErrorBody(msg))
  }

  const InternalError := Error(500, "Internal server error")

  /** `{ success: true }`. */
  const Success := JObj(map["success" := JBool(true)])

  /** A response sent without touching the store. */
  function Respond(r: Response): Outcome {
    Outcome(r, [])
  }

  /** `searchParams.get(key)`, with None for `null`. */
  function Param(params: Params, key: string): Option<string> {
    if key in params then Some(params[key]) else None
  }

  /** A parameter that is present and not empty, so a JavaScript `if (p)` takes it. */
  predicate Given(p: Option<string>) {
    p.Some? && p.value != []
  }

  /** `cookies.get(name)?.value` tested with `if (!token)`. */
  predicate HasCookie(cookies: Cookies, name: string) {
    name in cookies && cookies[name] != []
  }
}
