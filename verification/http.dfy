/**
 * The request and reply of a Flask view, reduced to what the handlers
 * inspect: the method, the `X-API-Key` header and the body as
 * `request.is_json` / `request.get_json()` deliver it.
 */
module Http {
  import opened Wrappers
  import opened Json

  datatype Method = Options | Post

  datatype RequestBody =
    /** `request.is_json` is false; `get_json()` would raise with `getJsonError`. */
    | NotJson(getJsonError: string)
    /** `request.is_json` is true but `get_json()` raises with `error`. */
    | BadJson(error: string)
    /** The decoded body. */
    | JsonBody(data: Json)

  datatype Request = Request(apiKey: Option<string>, body: RequestBody)

  datatype Payload =
    | Text(text: string)
    | JsonPayload(json: Json)
    /** Flask's own error page for an exception the view does not catch. */
    | UncaughtError

  datatype Reply = Reply(status: nat, payload: Payload)

  /** `if not api_key`: the header is missing or empty. */
  predicate HasApiKey(req: Request) {
    req.apiKey.Some? && |req.apiKey.value| > 0
  }

  /** A JSON reply. */
  function JsonReply(status: nat, body: Json): Reply {
    Reply(status, JsonPayload(body))
  }
}
