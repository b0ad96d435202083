/** What travels between the pages and the route handlers. */
module Http {
  import opened Wrappers
  import opened JsValue

  datatype Method = GET | POST | PUT | DELETE

  /** The path of the players collection, which both pages call. */
  const Collection := "/api/players"

  /** A handler's answer: the status and the object given to `NextResponse.json`. */
  datatype Response = Response(status: int, body: Value)

  /** What a page's `fetch` yields: a response with its `ok` flag and text,
      or a rejected promise carrying the error's message. */
  datatype Reply = Answered(ok: bool, text: string) | FetchFailed(message: string)

  /** The request body as `request.json()` yields it: a JSON value, or the
      parse error's string form. */
  datatype Body = Unparsable(reason: string) | Parsed(json: Value)

  /** The awaited query: its result, or the string form of what it threw. */
  datatype DbOutcome = Done(result: Value) | Failed(error: string)

  /** A handler's effect: its response and the bind values of the one query
      it issued, if it issued one. */
  datatype Handled = Handled(response: Response, bound: Option<seq<Value>>)

  /** `{ message: "error", error }` with the given status. */
  function ErrorResponse(status: int, error: string): Response {
    Response(status, Obj(map["message" := Str("error"), "error" := Str(error)]))
  }

  /** `text || fallback`: the server's text, or the fallback when it is empty. */
  function ErrorText(text: string, fallback: string): (r: string)
    ensures fallback != "" ==> r != ""
    ensures r == text || (text == "" && r == fallback)
  {
    if text == "" then fallback else text
  }
}
