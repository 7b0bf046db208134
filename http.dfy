/**
 * The HTTP exchange, abstracted to values: what a `fetch` to an upstream
 * produced, and the status and JSON body a handler answers with.
 */
module Http {
  import opened Js

  /**
   * A completed upstream response: its status, its body text, and the value
   * `JSON.parse` gives for that text (None when the text is not JSON).
   * A `fetch` that rejects (connection refused, DNS failure) is `None` at
   * the call sites.
   */
  datatype Fetched = Fetched(status: int, text: string, json: Option<Json>)

  /** `Response.ok`: a status in the range 200-299. */
  predicate IsOk(f: Fetched)
  {
    200 <= f.status <= 299
  }

  /** What a handler sends: `res.status(status).json(body)`. */
  datatype Reply = Reply(status: int, body: Json)

  /** `res.json(body)`: status 200. */
  function Okay(body: Json): (r: Reply)
  {
    Reply(200, body)
  }

  /** `res.status(status).json({ error })`. */
  function Fail(status: int, error: string): (r: Reply)
  {
    Reply(status, Obj1("error", JStr(error)))
  }

  /** `res.status(502).json({ error, detail })` for a non-ok upstream. */
  function UpstreamFail(source: string, detail: string): (r: Reply)
  {
    Reply(502, Obj2("error", JStr(source), "detail", JStr(detail)))
  }
}
